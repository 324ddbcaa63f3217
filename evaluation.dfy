/** precision and recall (graphs.py:63-91): how well a recommendation graph
  * matches a testing graph, compared edge by edge. The Python code returns a
  * float; here the ratio is an exact real. */
module Evaluation {
  import opened DiGraphs

  /** A subset as large as its superset is the whole superset. */
  lemma {:induction false} SubsetCardEq<T>(a: set<T>, b: set<T>)
    requires a <= b && |a| == |b|
    ensures a == b
  {
    assert b == a + (b - a);
    assert |b - a| == 0;
  }

  /** The share of the edges in judged that also occur in other; 0 when
    * judged is empty (the guards at lines 74 and 88). */
  function Share<V(==)>(judged: set<(V, V)>, other: set<(V, V)>): (r: real)
    ensures 0.0 <= r <= 1.0
    ensures judged == {} ==> r == 0.0
    ensures judged != {} ==> r * |judged| as real == |judged * other| as real
    ensures r == 1.0 <==> judged != {} && judged <= other
    ensures r == 0.0 <==> judged * other == {}
  {
    SubsetCard(judged * other, judged);
    if |judged| == 0 then
      0.0
    else
      var n, d := |judged * other| as real, |judged| as real;
      assert n / d * d == n;
      assert n / d == 1.0 <==> judged <= other by {
        if n / d == 1.0 {
          SubsetCardEq(judged * other, judged);
        }
        if judged <= other {
          assert judged * other == judged;
        }
      }
      n / d
  }

  /** Precision of the recommended edges rec against the test edges test:
    * the fraction of recommendations that are in the test set. */
  function PrecisionOf<V(==)>(rec: set<(V, V)>, test: set<(V, V)>): (r: real)
    ensures 0.0 <= r <= 1.0
    ensures rec == {} ==> r == 0.0
    ensures rec != {} ==> r * |rec| as real == |rec * test| as real
    ensures r == 1.0 <==> rec != {} && rec <= test
  {
    Share(rec, test)
  }

  /** Recall of rec against test: the fraction of the test edges that were
    * recommended. */
  function RecallOf<V(==)>(rec: set<(V, V)>, test: set<(V, V)>): (r: real)
    ensures 0.0 <= r <= 1.0
    ensures test == {} ==> r == 0.0
    ensures test != {} ==> r * |test| as real == |rec * test| as real
    ensures r == 1.0 <==> test != {} && test <= rec
  {
    assert test * rec == rec * test;
    Share(test, rec)
  }

  /** Recall is precision with the roles of the two edge sets swapped. */
  lemma {:induction false} RecallIsSwappedPrecision<V>(rec: set<(V, V)>, test: set<(V, V)>)
    ensures RecallOf(rec, test) == PrecisionOf(test, rec)
  {
    assert test * rec == rec * test;
  }

  /** A recommendation that is exactly the (non-empty) test set scores 1 on
    * both measures. */
  lemma PerfectMatch<V>(rec: set<(V, V)>, test: set<(V, V)>)
    requires rec == test && rec != {}
    ensures PrecisionOf(rec, test) == 1.0 && RecallOf(rec, test) == 1.0
  {
  }

  /** Neither measure is positive when the two edge sets share no edge. */
  lemma Disjoint<V>(rec: set<(V, V)>, test: set<(V, V)>)
    requires rec * test == {}
    ensures PrecisionOf(rec, test) == 0.0 && RecallOf(rec, test) == 0.0
  {
    assert test * rec == {};
  }

  /** precision(recommendations, testing_set), lines 63-77. */
  method Precision<V(==)>(recommendations: DiGraph<V>, testing: DiGraph<V>) returns (r: real)
    ensures r == PrecisionOf(EdgePairs(recommendations.edges), EdgePairs(testing.edges))
  {
    var recEdges := recommendations.EdgeSet();
    var testEdges := testing.EdgeSet();
    var both := recEdges * testEdges;
    if |recEdges| == 0 {
      return 0.0;
    }
    r := |both| as real / |recEdges| as real;
  }

  /** recall(recommendations, testing_set), lines 79-91. */
  method Recall<V(==)>(recommendations: DiGraph<V>, testing: DiGraph<V>) returns (r: real)
    ensures r == RecallOf(EdgePairs(recommendations.edges), EdgePairs(testing.edges))
  {
    var recEdges := recommendations.EdgeSet();
    var testEdges := testing.EdgeSet();
    var both := recEdges * testEdges;
    if |testEdges| == 0 {
      return 0.0;
    }
    r := |both| as real / |testEdges| as real;
  }
}
