/** The directed-graph container of graphs.py (class DiGraph) and the
  * reachability notions the searches are specified against.
  *
  * A vertex is identified by its name alone (Vertex.__eq__ and
  * Vertex.__hash__ compare names only), so vertices are values of the
  * type parameter V and two vertices are the same exactly when they are
  * equal. */
module DiGraphs {

  datatype Option<T> = None | Some(value: T)

  /** Every destination of an edge is itself a vertex. */
  ghost predicate Closed<V>(adj: map<V, set<V>>)
  {
    forall u | u in adj :: adj[u] <= adj.Keys
  }

  /** The ordered pairs (u, v) such that v is in u's adjacency set: what
    * DiGraph.edge_set is documented to collect. */
  function EdgePairs<V>(adj: map<V, set<V>>): set<(V, V)>
  {
    set u, v | u in adj && v in adj[u] :: (u, v)
  }

  /** v can be reached from s by a walk of exactly k edges. */
  ghost predicate ReachIn<V>(adj: map<V, set<V>>, s: V, v: V, k: nat)
    decreases k
  {
    if k == 0 then v == s
    else exists u :: u in adj && v in adj[u] && ReachIn(adj, s, u, k - 1)
  }

  ghost predicate Reachable<V>(adj: map<V, set<V>>, s: V, v: V)
  {
    exists k: nat :: ReachIn(adj, s, v, k)
  }

  /** v can be reached from s in at most bound edges (never, if bound < 0). */
  ghost predicate ReachableWithin<V>(adj: map<V, set<V>>, s: V, v: V, bound: int)
  {
    exists k: nat :: k <= bound && ReachIn(adj, s, v, k)
  }

  /** adj has the edge a -> b: what edge_exists(a, b) tests (graphs.py:241-250). */
  predicate Linked<V>(adj: map<V, set<V>>, a: V, b: V)
  {
    a in adj && b in adj[a]
  }

  /** k is the length of a shortest walk from s to v. */
  ghost predicate ShortestDist<V>(adj: map<V, set<V>>, s: V, v: V, k: nat)
  {
    ReachIn(adj, s, v, k) && forall j: nat :: j < k ==> !ReachIn(adj, s, v, j)
  }

  lemma EdgePairsNewVertex<V>(adj: map<V, set<V>>, x: V)
    requires x !in adj
    ensures EdgePairs(adj[x := {}]) == EdgePairs(adj)
  {
    var m := adj[x := {}];
    forall p | p in EdgePairs(m) ensures p in EdgePairs(adj) {
      var (u, v) := p;
      assert u != x;
    }
  }

  lemma EdgePairsInsert<V>(adj: map<V, set<V>>, a: V, b: V)
    requires a in adj
    ensures EdgePairs(adj[a := adj[a] + {b}]) == EdgePairs(adj) + {(a, b)}
  {
    var m := adj[a := adj[a] + {b}];
    forall p | p in EdgePairs(m) ensures p in EdgePairs(adj) + {(a, b)} {
      var (u, v) := p;
      if u == a && v != b {
        assert v in adj[u];
      }
    }
    forall p | p in EdgePairs(adj) + {(a, b)} ensures p in EdgePairs(m) {
      var (u, v) := p;
      assert u in m && v in m[u];
    }
  }

  /** What add_edge does to the adjacency map: grown is before with v1 and
    * v2 added as vertices where missing, and v2 then joins v1's set. */
  lemma InsertEdge<V>(before: map<V, set<V>>, grown: map<V, set<V>>, after: map<V, set<V>>, v1: V, v2: V)
    requires grown.Keys == before.Keys + {v1, v2}
    requires forall x | x in grown :: grown[x] == if x in before then before[x] else {}
    requires after == grown[v1 := grown[v1] + {v2}]
    ensures after.Keys == before.Keys + {v1, v2}
    ensures after[v1] == (if v1 in before then before[v1] else {}) + {v2}
    ensures forall x | x in after && x != v1 :: after[x] == if x in before then before[x] else {}
    ensures Closed(before) ==> Closed(after)
  {
  }

  /** Two add_vertex calls in a row. */
  lemma Grow2<V>(before: map<V, set<V>>, mid: map<V, set<V>>, grown: map<V, set<V>>, v1: V, v2: V)
    requires mid == if v1 in before then before else before[v1 := {}]
    requires grown == if v2 in mid then mid else mid[v2 := {}]
    ensures grown.Keys == before.Keys + {v1, v2}
    ensures forall x | x in grown :: grown[x] == if x in before then before[x] else {}
  {
  }

  /** add_edge adds exactly the pair (v1, v2) to the edge set. */
  lemma InsertEdgePairs<V>(before: map<V, set<V>>, grown: map<V, set<V>>, after: map<V, set<V>>, v1: V, v2: V)
    requires grown.Keys == before.Keys + {v1, v2}
    requires forall x | x in grown :: grown[x] == if x in before then before[x] else {}
    requires after == grown[v1 := grown[v1] + {v2}]
    ensures forall p :: p in EdgePairs(after) <==> p in EdgePairs(before) || p == (v1, v2)
    ensures |EdgePairs(after)| <= |EdgePairs(before)| + 1
  {
    GrownPairs(before, grown);
    EdgePairsInsert(grown, v1, v2);
  }

  /** Adding vertices with empty adjacency sets adds no edge. */
  lemma GrownPairs<V>(before: map<V, set<V>>, grown: map<V, set<V>>)
    requires before.Keys <= grown.Keys
    requires forall x | x in grown :: grown[x] == if x in before then before[x] else {}
    ensures EdgePairs(grown) == EdgePairs(before)
  {
    forall p | p in EdgePairs(grown) ensures p in EdgePairs(before) {
      var (u, v) := p;
      assert u in before;
    }
    forall p | p in EdgePairs(before) ensures p in EdgePairs(grown) {
      var (u, v) := p;
      assert u in grown && v in grown[u];
    }
  }

  /** DiGraph.edge_set exactly as graphs.py:209 has it: the loop body calls
    * `set.add` on the builtin type instead of on the local accumulator, so
    * the first edge it meets raises a TypeError (None here); a graph with no
    * edge yields the empty set. */
  function EdgeSetAsWritten<V>(adj: map<V, set<V>>): (r: Option<set<(V, V)>>)
    ensures r.Some? <==> EdgePairs(adj) == {}
    ensures r.Some? ==> r.value == {}
  {
    EdgePairsEmpty(adj);
    if exists u :: u in adj && adj[u] != {} then None else Some({})
  }

  lemma EdgePairsEmpty<V>(adj: map<V, set<V>>)
    ensures EdgePairs(adj) == {} <==> forall u | u in adj :: adj[u] == {}
  {
    if u :| u in adj && adj[u] != {} {
      var v :| v in adj[u];
      assert (u, v) in EdgePairs(adj);
    }
  }

  /** Any graph with an edge shows the discrepancy: the documented result
    * holds that edge, the code as written raises. */
  lemma EdgeSetAsWrittenRaises<V>(adj: map<V, set<V>>, u: V, v: V)
    requires u in adj && v in adj[u]
    ensures (u, v) in EdgePairs(adj) && EdgeSetAsWritten(adj) == None
  {
  }

  /** A subset is no larger than its superset. */
  lemma SubsetCard<T>(a: set<T>, b: set<T>)
    requires a <= b
    ensures |a| <= |b|
  {
    assert b == a + (b - a);
  }

  class DiGraph<V(==)> {
    /** _edges: each vertex mapped to the set of its destinations. */
    var edges: map<V, set<V>>
    var numVertices: nat
    /** Counts add_edge calls, duplicates included (graphs.py:224). */
    var numEdges: nat

    ghost predicate Valid()
      reads this
    {
      && Closed(edges)
      && numVertices == |edges.Keys|
      && |EdgePairs(edges)| <= numEdges
    }

    constructor ()
      ensures Valid()
      ensures edges == map[] && numVertices == 0 && numEdges == 0
    {
      edges := map[];
      numVertices := 0;
      numEdges := 0;
    }

    /** edge_set, following its docstring rather than graphs.py:209 (see
      * EdgeSetAsWritten): every (u, v) with v among u's destinations. */
    method EdgeSet() returns (r: set<(V, V)>)
      ensures r == EdgePairs(edges)
    {
      r := {};
      var pending := edges.Keys;
      while pending != {}
        invariant pending <= edges.Keys
        invariant forall p :: p in r <==> p.0 in edges && p.0 !in pending && p.1 in edges[p.0]
        decreases pending
      {
        var u :| u in pending;
        var dests := edges[u];
        while dests != {}
          invariant dests <= edges[u]
          invariant forall p :: p in r <==>
            (p.0 in edges && p.0 !in pending && p.1 in edges[p.0]) || (p.0 == u && p.1 in edges[u] && p.1 !in dests)
          decreases dests
        {
          var v :| v in dests;
          r := r + {(u, v)};
          dests := dests - {v};
        }
        pending := pending - {u};
      }
      forall p | p in EdgePairs(edges) ensures p in r {
        var (u, v) := p;
      }
    }

    method AddVertex(x: V)
      requires Valid()
      modifies this
      ensures Valid()
      ensures edges == if x in old(edges) then old(edges) else old(edges)[x := {}]
      ensures numVertices == if x in old(edges) then old(numVertices) else old(numVertices) + 1
      ensures numEdges == old(numEdges)
      ensures EdgePairs(edges) == EdgePairs(old(edges))
    {
      if !VertexExists(x) {
        EdgePairsNewVertex(edges, x);
        edges := edges[x := {}];
        numVertices := numVertices + 1;
      }
    }

    method AddEdge(v1: V, v2: V)
      requires Valid()
      modifies this
      ensures Valid()
      ensures forall x :: x in edges <==> x in old(edges) || x == v1 || x == v2
      ensures edges[v1] == (if v1 in old(edges) then old(edges)[v1] else {}) + {v2}
      ensures forall x | x in edges && x != v1 :: edges[x] == if x in old(edges) then old(edges)[x] else {}
      ensures forall p :: p in EdgePairs(edges) <==> p in EdgePairs(old(edges)) || p == (v1, v2)
      ensures numEdges == old(numEdges) + 1
      ensures EdgeExists(v1, v2)
    {
      ghost var before := edges;
      if !VertexExists(v1) {
        AddVertex(v1);
      }
      ghost var mid := edges;
      if !VertexExists(v2) {
        AddVertex(v2);
      }
      Grow2(before, mid, edges, v1, v2);
      var canonical := GetVertex(v2);
      var dests := edges[v1] + {canonical.value};
      InsertEdge(before, edges, edges[v1 := dests], v1, v2);
      InsertEdgePairs(before, edges, edges[v1 := dests], v1, v2);
      edges := edges[v1 := dests];
      numEdges := numEdges + 1;
    }

    /** The stored vertex equal to x, found by scanning the keys. */
    method GetVertex(x: V) returns (r: Option<V>)
      ensures r == if x in edges then Some(x) else None
    {
      var keys := edges.Keys;
      while keys != {}
        invariant keys <= edges.Keys
        invariant x in edges ==> x in keys
        decreases keys
      {
        var v :| v in keys;
        if v == x {
          return Some(v);
        }
        keys := keys - {v};
      }
      return None;
    }

    /** A name that is not a vertex has no edge in either direction. */
    function VertexExists(x: V): (r: bool)
      reads this
      ensures !r ==> forall p | p in EdgePairs(edges) :: p.0 != x
      ensures !r && Closed(edges) ==> forall p | p in EdgePairs(edges) :: p.1 != x
    {
      x in edges
    }

    function CountVertices(): (n: nat)
      reads this
      requires Valid()
      ensures n == |edges.Keys|
    {
      numVertices
    }

    /** At least the number of distinct edges; more once a duplicate edge
      * has been added. */
    function CountEdges(): (n: nat)
      reads this
      requires Valid()
      ensures |EdgePairs(edges)| <= n
    {
      numEdges
    }

    function EdgeExists(a: V, b: V): (r: bool)
      reads this
      ensures r <==> (a, b) in EdgePairs(edges)
      ensures a !in edges ==> !r
    {
      Linked(edges, a, b)
    }

    function GetOutgoingEdges(x: V): (r: set<V>)
      reads this
      requires Valid() && x in edges
      ensures r <= edges.Keys
      ensures forall y | y in r :: EdgeExists(x, y)
      ensures forall p | p in EdgePairs(edges) && p.0 == x :: p.1 in r
    {
      edges[x]
    }
  }
}
