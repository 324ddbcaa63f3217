/** Three-colour breadth-first search (graphs.py:93-125) and its
  * depth-limited variant (graphs.py:127-165).
  *
  * In graphs.py the colour, the distance d and the predecessor pi are
  * mutable fields of the Vertex objects that the graph shares. Here the
  * three fields of every vertex form a Mark, and the search builds a map
  * from vertex to Mark that it hands back to the caller: the map stands for
  * those fields as the search leaves them. */
module Search {
  import opened DiGraphs

  datatype Color = White | Gray | Black

  /** A distance; Inf stands for the sys.maxsize "infinity". */
  datatype Dist = Inf | Fin(n: nat)

  /** The traversal fields of one vertex: color, d and pi. */
  datatype Mark<V> = Mark(color: Color, d: Dist, pi: Option<V>)

  /** The layer of a discovered vertex (Inf never occurs where it is used). */
  function Level(x: Dist): nat
  {
    if x.Fin? then x.n else 0
  }

  /** The depth bound of a search: none for bfs, max_depth for
    * recommend_friends_for_user. */
  datatype Limit = Unbounded | AtMost(maxDepth: int)

  /** A vertex at layer k may be put on the queue. */
  predicate Within(limit: Limit, k: nat)
  {
    limit.Unbounded? || k <= limit.maxDepth
  }

  /** pi[v] is an in-neighbour of v one layer closer to s, and it was taken
    * off the queue (it is s or its layer is within the limit). */
  ghost predicate HasParent<V>(adj: map<V, set<V>>, s: V, limit: Limit, st: map<V, Mark<V>>, v: V)
    requires st.Keys == adj.Keys && v in adj
  {
    && st[v].pi.Some?
    && var u := st[v].pi.value;
       && u in adj && v in adj[u] && st[u].d.Fin?
       && st[v].d == Fin(st[u].d.n + 1)
       && (u == s || Within(limit, st[u].d.n))
  }

  /** The fields of one vertex agree with each other and with the graph. */
  ghost predicate LabelOk<V>(adj: map<V, set<V>>, s: V, limit: Limit, st: map<V, Mark<V>>, v: V)
    requires st.Keys == adj.Keys && v in adj
  {
    && (st[v].color == White <==> st[v].d.Inf?)
    && (st[v].color == White ==> st[v].pi == None)
    && (st[v].d.Fin? ==> ReachIn(adj, s, v, st[v].d.n))
    && (st[v].d.Fin? && v != s ==> HasParent(adj, s, limit, st, v))
  }

  /** What every discovered vertex records, throughout the search. */
  ghost predicate Labelled<V>(adj: map<V, set<V>>, s: V, limit: Limit, st: map<V, Mark<V>>)
  {
    && st.Keys == adj.Keys && s in adj
    && st[s].color != White && st[s].d == Fin(0) && st[s].pi == None
    && forall v {:trigger LabelOk(adj, s, limit, st, v)} | v in adj :: LabelOk(adj, s, limit, st, v)
  }

  /** A BLACK vertex: it was taken off the queue, and all its out-neighbours
    * are discovered, none more than one layer further out. */
  ghost predicate Expanded<V>(adj: map<V, set<V>>, s: V, limit: Limit, st: map<V, Mark<V>>, v: V)
    requires Closed(adj) && st.Keys == adj.Keys && v in adj
  {
    && (v == s || Within(limit, Level(st[v].d)))
    && forall w | w in adj[v] :: st[w].color != White && Level(st[w].d) <= Level(st[v].d) + 1
  }

  /** A vertex off the queue: if GRAY it lies beyond the limit, if BLACK it
    * has been expanded. */
  ghost predicate Settled<V>(adj: map<V, set<V>>, s: V, limit: Limit, st: map<V, Mark<V>>, q: seq<V>, v: V)
    requires Closed(adj) && st.Keys == adj.Keys && v in adj
  {
    && (st[v].color == Gray && v !in q ==> v != s && !Within(limit, Level(st[v].d)))
    && (st[v].color == Black ==> Expanded(adj, s, limit, st, v))
  }

  /** The queue holds distinct GRAY vertices that may be expanded, in
    * non-decreasing layer order, none below layer floor. */
  ghost predicate Queued<V>(adj: map<V, set<V>>, s: V, limit: Limit, st: map<V, Mark<V>>, q: seq<V>, floor: nat)
    requires st.Keys == adj.Keys
  {
    && (forall i | 0 <= i < |q| ::
          && q[i] in adj && st[q[i]].color == Gray && floor <= Level(st[q[i]].d)
          && (q[i] == s || Within(limit, Level(st[q[i]].d))))
    && (forall i, j | 0 <= i < j < |q| :: q[i] != q[j] && Level(st[q[i]].d) <= Level(st[q[j]].d))
  }

  /** No discovered vertex lies beyond layer top. */
  ghost predicate Bounded<V>(st: map<V, Mark<V>>, top: nat)
  {
    forall v | v in st && st[v].color != White :: Level(st[v].d) <= top
  }

  /** The state at the head of the outer `while Q` loop. */
  ghost predicate Frontier<V>(adj: map<V, set<V>>, s: V, limit: Limit, st: map<V, Mark<V>>, q: seq<V>)
    requires Closed(adj) && st.Keys == adj.Keys
  {
    && Queued(adj, s, limit, st, q, 0)
    && (|q| > 0 ==> Bounded(st, Level(st[q[0]].d) + 1))
    && forall v {:trigger Settled(adj, s, limit, st, q, v)} | v in adj :: Settled(adj, s, limit, st, q, v)
  }

  /** The state inside the loop over u's out-neighbours: u has been dequeued
    * and the neighbours outside todo have been looked at. */
  ghost predicate Expanding<V>(adj: map<V, set<V>>, s: V, limit: Limit, st: map<V, Mark<V>>,
                               q: seq<V>, u: V, todo: set<V>)
    requires Closed(adj) && st.Keys == adj.Keys
  {
    && u in adj && st[u].color == Gray && u !in q && (u == s || Within(limit, Level(st[u].d)))
    && Queued(adj, s, limit, st, q, Level(st[u].d))
    && Bounded(st, Level(st[u].d) + 1)
    && (forall v {:trigger Settled(adj, s, limit, st, q, v)} | v in adj && v != u :: Settled(adj, s, limit, st, q, v))
    && todo <= adj[u]
    && (forall w | w in adj[u] && w !in todo :: st[w].color != White)
  }

  /** Lines 105-113 (and 142-150): every vertex but s is reset to WHITE,
    * infinitely far and without predecessor; s is GRAY at distance 0. */
  method Initialise<V>(g: DiGraph<V>, s: V) returns (st: map<V, Mark<V>>)
    requires s in g.edges
    ensures st.Keys == g.edges.Keys
    ensures forall v | v in st :: st[v] == if v == s then Mark(Gray, Fin(0), None) else Mark(White, Inf, None)
  {
    st := map[];
    var pending := g.edges.Keys;
    while pending != {}
      invariant pending <= g.edges.Keys
      invariant st.Keys == g.edges.Keys - pending - {s}
      invariant forall v | v in st :: st[v] == Mark(White, Inf, None)
      decreases pending
    {
      var v :| v in pending;
      if v != s {
        st := st[v := Mark(White, Inf, None)];
      }
      pending := pending - {v};
    }
    st := st[s := Mark(Gray, Fin(0), None)];
  }

  /** The reset state satisfies the search invariants with Q = [s]. */
  lemma Start<V>(adj: map<V, set<V>>, s: V, limit: Limit, st: map<V, Mark<V>>)
    requires Closed(adj) && s in adj && st.Keys == adj.Keys
    requires forall v | v in st :: st[v] == if v == s then Mark(Gray, Fin(0), None) else Mark(White, Inf, None)
    ensures Labelled(adj, s, limit, st)
    ensures Frontier(adj, s, limit, st, [s])
  {
    assert ReachIn(adj, s, s, 0);
  }

  /** Taking u off the queue starts the scan of its neighbours. */
  lemma Dequeue<V>(adj: map<V, set<V>>, s: V, limit: Limit, st: map<V, Mark<V>>, q: seq<V>)
    requires Closed(adj) && st.Keys == adj.Keys
    requires Frontier(adj, s, limit, st, q) && q != []
    ensures Expanding(adj, s, limit, st, q[1..], q[0], adj[q[0]])
  {
    var u, q' := q[0], q[1..];
    forall i | 0 <= i < |q'|
      ensures q'[i] != u && Level(st[u].d) <= Level(st[q'[i]].d)
    {
      assert q'[i] == q[i + 1];
    }
    forall v | v in adj && v != u ensures Settled(adj, s, limit, st, q', v) {
      assert Settled(adj, s, limit, st, q, v);
    }
  }

  /** Line 124 (163): once all its neighbours are seen, u turns BLACK. */
  lemma Finish<V>(adj: map<V, set<V>>, s: V, limit: Limit, st: map<V, Mark<V>>, q: seq<V>, u: V)
    requires Closed(adj) && st.Keys == adj.Keys && u in adj
    requires Expanding(adj, s, limit, st, q, u, {})
    ensures Frontier(adj, s, limit, st[u := st[u].(color := Black)], q)
  {
    var st' := st[u := st[u].(color := Black)];
    FinishQueue(adj, s, limit, st, q, u);
    assert Expanded(adj, s, limit, st', u);
    forall v | v in adj ensures Settled(adj, s, limit, st', q, v) {
      if v != u {
        Keep(adj, s, limit, st, q, u, v);
      }
    }
  }

  /** Turning u BLACK leaves the queue and the layer bound as they were. */
  lemma FinishQueue<V>(adj: map<V, set<V>>, s: V, limit: Limit, st: map<V, Mark<V>>, q: seq<V>, u: V)
    requires Closed(adj) && st.Keys == adj.Keys && u in adj
    requires Expanding(adj, s, limit, st, q, u, {})
    ensures Queued(adj, s, limit, st[u := st[u].(color := Black)], q, 0)
    ensures |q| > 0 ==> Bounded(st[u := st[u].(color := Black)], Level(st[q[0]].d) + 1)
  {
    var st' := st[u := st[u].(color := Black)];
    forall i | 0 <= i < |q| ensures st'[q[i]] == st[q[i]] {
    }
  }

  /** Turning the GRAY vertex u BLACK leaves every other vertex settled as it
    * was: colours stay discovered and no distance changes. */
  lemma Keep<V>(adj: map<V, set<V>>, s: V, limit: Limit, st: map<V, Mark<V>>, q: seq<V>, u: V, v: V)
    requires Closed(adj) && st.Keys == adj.Keys && u in adj && v in adj && v != u
    requires st[u].color == Gray && Settled(adj, s, limit, st, q, v)
    ensures Settled(adj, s, limit, st[u := st[u].(color := Black)], q, v)
  {
    if st[v].color == Black {
      assert Expanded(adj, s, limit, st, v);
    }
  }

  /** Turning a discovered vertex BLACK keeps the labels consistent. */
  lemma BlackenLabels<V>(adj: map<V, set<V>>, s: V, limit: Limit, st: map<V, Mark<V>>, u: V)
    requires Labelled(adj, s, limit, st) && u in adj && st[u].color != White
    ensures Labelled(adj, s, limit, st[u := st[u].(color := Black)])
  {
    var st' := st[u := st[u].(color := Black)];
    forall v | v in adj ensures LabelOk(adj, s, limit, st', v) {
      assert LabelOk(adj, s, limit, st, v);
      if st[v].d.Fin? && v != s {
        assert HasParent(adj, s, limit, st, v);
      }
    }
  }

  /** After the queue empties, every vertex reachable from s by a walk of k
    * edges whose first k - 1 layers may be expanded is discovered, at a
    * layer of at most k. */
  lemma {:induction false} Reached<V>(adj: map<V, set<V>>, s: V, limit: Limit, st: map<V, Mark<V>>, v: V, k: nat)
    requires Closed(adj) && Labelled(adj, s, limit, st)
    requires Frontier(adj, s, limit, st, [])
    requires ReachIn(adj, s, v, k) && (k == 0 || Within(limit, k - 1))
    ensures v in adj && st[v].color != White && st[v].d.Fin? && st[v].d.n <= k
    decreases k
  {
    if k == 0 {
      assert LabelOk(adj, s, limit, st, v);
    } else {
      var u :| u in adj && v in adj[u] && ReachIn(adj, s, u, k - 1);
      Reached(adj, s, limit, st, u, k - 1);
      assert LabelOk(adj, s, limit, st, u);
      assert Settled(adj, s, limit, st, [], u);
      assert Expanded(adj, s, limit, st, u);
      assert LabelOk(adj, s, limit, st, v);
    }
  }

  /** After the queue empties, every discovered vertex sits at its shortest
    * distance from s. */
  lemma Shortest<V>(adj: map<V, set<V>>, s: V, limit: Limit, st: map<V, Mark<V>>, v: V)
    requires Closed(adj) && Labelled(adj, s, limit, st)
    requires Frontier(adj, s, limit, st, [])
    requires v in adj && st[v].d.Fin?
    ensures ShortestDist(adj, s, v, st[v].d.n)
  {
    assert LabelOk(adj, s, limit, st, v);
    forall j: nat | j < st[v].d.n ensures !ReachIn(adj, s, v, j) {
      if ReachIn(adj, s, v, j) {
        assert HasParent(adj, s, limit, st, v);
        Reached(adj, s, limit, st, v, j);
      }
    }
  }

  /** After the queue empties, a WHITE vertex has no walk from s of a length
    * the search could have followed. */
  lemma Unreached<V>(adj: map<V, set<V>>, s: V, limit: Limit, st: map<V, Mark<V>>, v: V, k: nat)
    requires Closed(adj) && Labelled(adj, s, limit, st)
    requires Frontier(adj, s, limit, st, [])
    requires v in adj && st[v].color == White && (k == 0 || Within(limit, k - 1))
    ensures !ReachIn(adj, s, v, k)
  {
    if ReachIn(adj, s, v, k) {
      Reached(adj, s, limit, st, v, k);
    }
  }

  /** The vertices that have been expanded. */
  ghost function Blackened<V>(st: map<V, Mark<V>>): set<V>
  {
    set v | v in st && st[v].color == Black
  }

  /** Recolouring one vertex moves it into or out of Blackened only. */
  lemma Repaint<V>(st: map<V, Mark<V>>, v: V, m: Mark<V>)
    ensures Blackened(st[v := m]) == if m.color == Black then Blackened(st) + {v} else Blackened(st) - {v}
    ensures m.color == Black && v !in Blackened(st) ==> |Blackened(st[v := m])| == |Blackened(st)| + 1
  {
  }

  /** Adding one new element adds one to the size. */
  lemma AddCard<T>(a: set<T>, b: set<T>, x: T)
    requires x !in a && forall y :: y in b <==> y in a || y == x
    ensures |b| == |a| + 1
  {
    assert b == a + {x};
  }

  /** st is st0 once the out-neighbours of u outside todo have been looked
    * at: those that were WHITE now carry m, every other vertex is as it was. */
  ghost predicate Painted<V>(adj: map<V, set<V>>, u: V, st0: map<V, Mark<V>>, m: Mark<V>, todo: set<V>, st: map<V, Mark<V>>)
    requires st0.Keys == adj.Keys && u in adj
  {
    && st.Keys == adj.Keys
    && forall v | v in adj :: st[v] == if v in adj[u] && v !in todo && st0[v].color == White then m else st0[v]
  }

  /** found lists, once each and in the order met, the out-neighbours of u
    * outside todo that were WHITE in st0. */
  ghost predicate Found<V>(adj: map<V, set<V>>, u: V, st0: map<V, Mark<V>>, todo: set<V>, found: seq<V>)
    requires Closed(adj) && st0.Keys == adj.Keys && u in adj
  {
    && (forall i | 0 <= i < |found| :: found[i] in adj[u] && found[i] !in todo && st0[found[i]].color == White)
    && (forall v | v in adj[u] && v !in todo && st0[v].color == White :: v in found)
    && (forall i, j | 0 <= i < j < |found| :: found[i] != found[j])
  }

  /** One step of the scan: w, taken from todo, is found if it is WHITE. */
  lemma ScanStep<V>(adj: map<V, set<V>>, u: V, st0: map<V, Mark<V>>, m: Mark<V>,
                    todo: set<V>, st: map<V, Mark<V>>, found: seq<V>, w: V)
    requires Closed(adj) && st0.Keys == adj.Keys && u in adj && m.color != White
    requires todo <= adj[u] && w in todo
    requires Painted(adj, u, st0, m, todo, st) && Found(adj, u, st0, todo, found)
    ensures st[w].color == White ==>
      Painted(adj, u, st0, m, todo - {w}, st[w := m]) && Found(adj, u, st0, todo - {w}, found + [w])
    ensures st[w].color != White ==>
      Painted(adj, u, st0, m, todo - {w}, st) && Found(adj, u, st0, todo - {w}, found)
  {
    if st[w].color == White {
      var found' := found + [w];
      forall i | 0 <= i < |found'|
        ensures found'[i] in adj[u] && found'[i] !in todo - {w} && st0[found'[i]].color == White
      {
        if i < |found| {
          assert found'[i] == found[i];
        }
      }
      forall i, j | 0 <= i < j < |found'| ensures found'[i] != found'[j] {
        assert found'[i] == found[i];
        if j < |found| {
          assert found'[j] == found[j];
        }
      }
    }
  }

  /** Lines 119-122 (156-159): the WHITE out-neighbours of u turn GRAY one
    * layer beyond u, with u as predecessor; the labels stay consistent. */
  lemma ExpandLabels<V>(adj: map<V, set<V>>, s: V, limit: Limit, st0: map<V, Mark<V>>, u: V, m: Mark<V>, st: map<V, Mark<V>>)
    requires Closed(adj) && Labelled(adj, s, limit, st0)
    requires u in adj && st0[u].color != White && (u == s || Within(limit, Level(st0[u].d)))
    requires m == Mark(Gray, Fin(Level(st0[u].d) + 1), Some(u))
    requires Painted(adj, u, st0, m, {}, st)
    ensures Labelled(adj, s, limit, st)
  {
    assert LabelOk(adj, s, limit, st0, u);
    assert LabelOk(adj, s, limit, st0, s);
    forall v | v in adj ensures LabelOk(adj, s, limit, st, v) {
      if v in adj[u] && st0[v].color == White {
        assert ReachIn(adj, s, v, st0[u].d.n + 1);
      } else {
        assert LabelOk(adj, s, limit, st0, v);
        if st0[v].d.Fin? && v != s {
          assert HasParent(adj, s, limit, st0, v);
          var p := st0[v].pi.value;
          assert LabelOk(adj, s, limit, st0, p);
        }
      }
    }
  }

  /** Lines 123 (160-161): the found vertices join the back of the queue,
    * all at layer Level(u) + 1, exactly when that layer is within the limit;
    * the queue stays in layer order. */
  lemma ExpandQueue<V>(adj: map<V, set<V>>, s: V, limit: Limit, st0: map<V, Mark<V>>, q0: seq<V>, u: V,
                       m: Mark<V>, st: map<V, Mark<V>>, found: seq<V>)
    requires Closed(adj) && st0.Keys == adj.Keys && u in adj
    requires Queued(adj, s, limit, st0, q0, Level(st0[u].d)) && Bounded(st0, Level(st0[u].d) + 1)
    requires m == Mark(Gray, Fin(Level(st0[u].d) + 1), Some(u))
    requires Painted(adj, u, st0, m, {}, st) && Found(adj, u, st0, {}, found)
    ensures Queued(adj, s, limit, st, if Within(limit, Level(st0[u].d) + 1) then q0 + found else q0, Level(st0[u].d))
    ensures Bounded(st, Level(st0[u].d) + 1)
  {
    forall i | 0 <= i < |q0| ensures st[q0[i]] == st0[q0[i]] {
    }
    if Within(limit, Level(st0[u].d) + 1) {
      var q := q0 + found;
      forall i | 0 <= i < |q|
        ensures q[i] in adj && st[q[i]].color == Gray && Level(st0[u].d) <= Level(st[q[i]].d)
        ensures q[i] == s || Within(limit, Level(st[q[i]].d))
      {
        if i < |q0| {
          assert q[i] == q0[i];
        } else {
          assert q[i] == found[i - |q0|];
        }
      }
      forall i, j | 0 <= i < j < |q|
        ensures q[i] != q[j] && Level(st[q[i]].d) <= Level(st[q[j]].d)
      {
        if j < |q0| {
          assert q[i] == q0[i] && q[j] == q0[j];
        } else if i < |q0| {
          assert q[i] == q0[i] && q[j] == found[j - |q0|];
          assert st0[q0[i]].color == Gray;
        } else {
          assert q[i] == found[i - |q0|] && q[j] == found[j - |q0|];
        }
      }
    }
  }

  /** A vertex found by the scan is GRAY and, unless queued, beyond the
    * limit; every other vertex but u stays settled as it was. */
  lemma ExpandSettled<V>(adj: map<V, set<V>>, s: V, limit: Limit, st0: map<V, Mark<V>>, q0: seq<V>, u: V,
                         m: Mark<V>, st: map<V, Mark<V>>, found: seq<V>)
    requires Closed(adj) && st0.Keys == adj.Keys && u in adj && s in adj && st0[s].color != White
    requires forall v | v in adj && v != u :: Settled(adj, s, limit, st0, q0, v)
    requires m == Mark(Gray, Fin(Level(st0[u].d) + 1), Some(u))
    requires Painted(adj, u, st0, m, {}, st) && Found(adj, u, st0, {}, found)
    ensures forall v | v in adj && v != u ::
      Settled(adj, s, limit, st, if Within(limit, Level(st0[u].d) + 1) then q0 + found else q0, v)
  {
    var q := if Within(limit, Level(st0[u].d) + 1) then q0 + found else q0;
    forall v | v in adj && v != u ensures Settled(adj, s, limit, st, q, v) {
      assert Settled(adj, s, limit, st0, q0, v);
      if v in adj[u] && st0[v].color == White {
        assert v in found;
      } else if st[v].color == Black {
        assert Expanded(adj, s, limit, st0, v);
        forall w | w in adj[v] ensures st[w].color != White && Level(st[w].d) <= Level(st[v].d) + 1 {
        }
      }
    }
  }

  /** The whole scan of u's out-neighbours, from the state before it to the
    * state after it. */
  lemma ExpandOutcome<V>(adj: map<V, set<V>>, s: V, limit: Limit, st0: map<V, Mark<V>>, q0: seq<V>, u: V,
                         m: Mark<V>, st: map<V, Mark<V>>, found: seq<V>)
    requires Closed(adj) && Labelled(adj, s, limit, st0) && u in adj
    requires Expanding(adj, s, limit, st0, q0, u, adj[u])
    requires m == Mark(Gray, Fin(Level(st0[u].d) + 1), Some(u))
    requires Painted(adj, u, st0, m, {}, st) && Found(adj, u, st0, {}, found)
    ensures Labelled(adj, s, limit, st)
    ensures Expanding(adj, s, limit, st, if Within(limit, Level(st0[u].d) + 1) then q0 + found else q0, u, {})
    ensures Blackened(st) == Blackened(st0)
  {
    ExpandLabels(adj, s, limit, st0, u, m, st);
    ExpandQueue(adj, s, limit, st0, q0, u, m, st, found);
    ExpandSettled(adj, s, limit, st0, q0, u, m, st, found);
    ExpandRest(adj, limit, st0, q0, u, m, st, found);
  }

  /** The scan leaves u as it was and outside the queue, paints all of u's
    * out-neighbours, and turns nothing BLACK. */
  lemma ExpandRest<V>(adj: map<V, set<V>>, limit: Limit, st0: map<V, Mark<V>>, q0: seq<V>, u: V,
                      m: Mark<V>, st: map<V, Mark<V>>, found: seq<V>)
    requires Closed(adj) && st0.Keys == adj.Keys && u in adj
    requires st0[u].color == Gray && u !in q0 && m.color == Gray
    requires Painted(adj, u, st0, m, {}, st) && Found(adj, u, st0, {}, found)
    ensures st[u] == st0[u]
    ensures u !in if Within(limit, Level(st0[u].d) + 1) then q0 + found else q0
    ensures forall w | w in adj[u] :: st[w].color != White
    ensures Blackened(st) == Blackened(st0)
  {
    assert st[u] == st0[u];
    forall i | 0 <= i < |found| ensures found[i] != u {
    }
    forall v ensures v in Blackened(st) <==> v in Blackened(st0) {
      if v in adj {
        assert st[v] == st0[v] || (st0[v].color == White && st[v] == m);
      }
    }
  }

  /** Lines 117-123 (and 154-161): the scan of u's out-neighbours. Each
    * WHITE neighbour turns GRAY one layer beyond u, with u as predecessor,
    * and every other vertex keeps its fields; found lists the newly GRAY
    * vertices once each, in the order met, and they join the back of the
    * queue (and queued) exactly when their layer is within the limit. */
  method Expand<V>(g: DiGraph<V>, limit: Limit, st0: map<V, Mark<V>>, q0: seq<V>, u: V)
    returns (st: map<V, Mark<V>>, q: seq<V>, queued: seq<V>, ghost found: seq<V>)
    requires Closed(g.edges) && st0.Keys == g.edges.Keys && u in g.edges && st0[u].color != White && st0[u].d.Fin?
    ensures Painted(g.edges, u, st0, Mark(Gray, Fin(st0[u].d.n + 1), Some(u)), {}, st)
    ensures Found(g.edges, u, st0, {}, found)
    ensures queued == if Within(limit, st0[u].d.n + 1) then found else []
    ensures q == if Within(limit, st0[u].d.n + 1) then q0 + found else q0
  {
    ghost var adj := g.edges;
    ghost var m0 := Mark(Gray, Fin(st0[u].d.n + 1), Some(u));
    st, q, queued, found := st0, q0, [], [];
    var todo := g.edges[u];
    while todo != {}
      invariant todo <= adj[u]
      invariant Painted(adj, u, st0, m0, todo, st) && Found(adj, u, st0, todo, found)
      invariant queued == if Within(limit, st0[u].d.n + 1) then found else []
      invariant q == if Within(limit, st0[u].d.n + 1) then q0 + found else q0
      invariant st[u].d == st0[u].d
      decreases todo
    {
      var w :| w in todo;
      ScanStep(adj, u, st0, m0, todo, st, found, w);
      if st[w].color == White {
        var m := Mark(Gray, Fin(st[u].d.n + 1), Some(u));
        st := st[w := m];
        if Within(limit, m.d.n) {
          q := q + [w];
          queued := queued + [w];
        }
        found := found + [w];
      }
      todo := todo - {w};
    }
  }

  /** The head of the queue is GRAY and has a distance. */
  lemma Head<V>(adj: map<V, set<V>>, s: V, limit: Limit, st: map<V, Mark<V>>, q: seq<V>)
    requires Closed(adj) && Labelled(adj, s, limit, st)
    requires Frontier(adj, s, limit, st, q) && q != []
    ensures q[0] in adj && st[q[0]].color == Gray && st[q[0]].d.Fin?
  {
    assert LabelOk(adj, s, limit, st, q[0]);
  }

  /** One iteration of `while Q` (lines 116-125, 153-164) keeps the search
    * invariants: u = Q[0] is dequeued, scanned, then turned BLACK. */
  lemma Round<V>(adj: map<V, set<V>>, s: V, limit: Limit, st0: map<V, Mark<V>>, q0: seq<V>,
                 st: map<V, Mark<V>>, found: seq<V>)
    requires Closed(adj) && Labelled(adj, s, limit, st0)
    requires Frontier(adj, s, limit, st0, q0) && q0 != [] && q0[0] in adj && st0[q0[0]].d.Fin?
    requires Painted(adj, q0[0], st0, Mark(Gray, Fin(st0[q0[0]].d.n + 1), Some(q0[0])), {}, st)
    requires Found(adj, q0[0], st0, {}, found)
    ensures st[q0[0]].color == Gray
    ensures Labelled(adj, s, limit, st[q0[0] := st[q0[0]].(color := Black)])
    ensures Frontier(adj, s, limit, st[q0[0] := st[q0[0]].(color := Black)],
                     if Within(limit, st0[q0[0]].d.n + 1) then q0[1..] + found else q0[1..])
    ensures q0[0] !in Blackened(st0)
    ensures forall v :: v in Blackened(st[q0[0] := st[q0[0]].(color := Black)]) <==> v in Blackened(st0) || v == q0[0]
  {
    var u := q0[0];
    var q := if Within(limit, st0[u].d.n + 1) then q0[1..] + found else q0[1..];
    Dequeue(adj, s, limit, st0, q0);
    assert LabelOk(adj, s, limit, st0, u);
    ExpandOutcome(adj, s, limit, st0, q0[1..], u, Mark(Gray, Fin(st0[u].d.n + 1), Some(u)), st, found);
    Finish(adj, s, limit, st, q, u);
    BlackenLabels(adj, s, limit, st, u);
    Repaint(st, u, st[u].(color := Black));
  }

  /** One iteration of `while Q` (lines 116-125, 153-164): u = Q[0] is
    * dequeued, its out-neighbours are scanned, and u turns BLACK. mid is
    * the state just before u turns BLACK. */
  method Visit<V>(g: DiGraph<V>, s: V, limit: Limit, st0: map<V, Mark<V>>, q0: seq<V>)
    returns (st: map<V, Mark<V>>, q: seq<V>, queued: seq<V>, ghost mid: map<V, Mark<V>>, ghost found: seq<V>)
    requires Closed(g.edges) && Labelled(g.edges, s, limit, st0)
    requires Frontier(g.edges, s, limit, st0, q0) && q0 != []
    ensures q0[0] in g.edges && st0[q0[0]].color != White && st0[q0[0]].d.Fin?
    ensures Labelled(g.edges, s, limit, st) && Frontier(g.edges, s, limit, st, q)
    ensures q0[0] !in Blackened(st0)
    ensures forall v :: v in Blackened(st) <==> v in Blackened(st0) || v == q0[0]
    ensures Painted(g.edges, q0[0], st0, Mark(Gray, Fin(st0[q0[0]].d.n + 1), Some(q0[0])), {}, mid)
    ensures Found(g.edges, q0[0], st0, {}, found)
    ensures queued == if Within(limit, st0[q0[0]].d.n + 1) then found else []
    ensures st == mid[q0[0] := mid[q0[0]].(color := Black)]
    ensures q == q0[1..] + queued
  {
    var u := q0[0];
    Head(g.edges, s, limit, st0, q0);
    st, q, queued, found := Expand(g, limit, st0, q0[1..], u);
    Round(g.edges, s, limit, st0, q0, st, found);
    mid := st;
    st := st[u := st[u].(color := Black)];
  }

  /** bfs(G, s): afterwards d is the BFS distance from s, and sys.maxsize
    * (Inf) exactly for the unreachable vertices, which stay WHITE; every
    * reached vertex is BLACK and, except s, has as pi an in-neighbour one
    * layer closer. `rounds` counts the iterations of the `while Q` loop. */
  method Bfs<V>(g: DiGraph<V>, s: V) returns (st: map<V, Mark<V>>, ghost rounds: nat)
    requires Closed(g.edges) && s in g.edges
    ensures st.Keys == g.edges.Keys
    ensures st[s] == Mark(Black, Fin(0), None)
    ensures forall v | v in st && st[v].d.Fin? :: ShortestDist(g.edges, s, v, st[v].d.n)
    ensures forall v | v in st :: st[v].d.Inf? <==> !Reachable(g.edges, s, v)
    ensures forall v | v in st :: st[v].color == if st[v].d.Fin? then Black else White
    ensures forall v | v in st && v != s && st[v].d.Fin? ::
      && st[v].pi.Some? && st[v].pi.value in g.edges && v in g.edges[st[v].pi.value]
      && st[st[v].pi.value].d.Fin? && st[st[v].pi.value].d.n + 1 == st[v].d.n
    ensures forall v | v in st && st[v].d.Inf? :: st[v].pi == None
    ensures rounds <= |g.edges.Keys|
  {
    ghost var adj := g.edges;
    var limit := Unbounded;
    st := Initialise(g, s);
    Start(adj, s, limit, st);
    var q := [s];
    rounds := 0;
    while q != []
      invariant Labelled(adj, s, limit, st)
      invariant Frontier(adj, s, limit, st, q)
      invariant Blackened(st) <= adj.Keys
      invariant rounds == |Blackened(st)|
      decreases adj.Keys - Blackened(st)
    {
      var queued;
      ghost var mid, found;
      ghost var st0, u := st, q[0];
      st, q, queued, mid, found := Visit(g, s, limit, st, q);
      AddCard(Blackened(st0), Blackened(st), u);
      rounds := rounds + 1;
    }
    SubsetCard(Blackened(st), adj.Keys);
    BfsOutcome(adj, s, st);
  }

  /** What the emptied queue leaves behind when nothing limits the depth. */
  lemma BfsOutcome<V>(adj: map<V, set<V>>, s: V, st: map<V, Mark<V>>)
    requires Closed(adj) && Labelled(adj, s, Unbounded, st)
    requires Frontier(adj, s, Unbounded, st, [])
    ensures st[s] == Mark(Black, Fin(0), None)
    ensures forall v | v in st && st[v].d.Fin? :: ShortestDist(adj, s, v, st[v].d.n)
    ensures forall v | v in st :: st[v].d.Inf? <==> !Reachable(adj, s, v)
    ensures forall v | v in st :: st[v].color == if st[v].d.Fin? then Black else White
    ensures forall v | v in st && v != s && st[v].d.Fin? ::
      && st[v].pi.Some? && st[v].pi.value in adj && v in adj[st[v].pi.value]
      && st[st[v].pi.value].d.Fin? && st[st[v].pi.value].d.n + 1 == st[v].d.n
    ensures forall v | v in st && st[v].d.Inf? :: st[v].pi == None
  {
    forall v | v in adj
      ensures st[v].d.Fin? ==> ShortestDist(adj, s, v, st[v].d.n)
      ensures st[v].d.Inf? <==> !Reachable(adj, s, v)
      ensures st[v].color == if st[v].d.Fin? then Black else White
      ensures st[v].d.Inf? ==> st[v].pi == None
      ensures v != s && st[v].d.Fin? ==>
        && st[v].pi.Some? && st[v].pi.value in adj && v in adj[st[v].pi.value]
        && st[st[v].pi.value].d.Fin? && st[st[v].pi.value].d.n + 1 == st[v].d.n
    {
      assert LabelOk(adj, s, Unbounded, st, v);
      assert Settled(adj, s, Unbounded, st, [], v);
      if st[v].d.Fin? {
        Shortest(adj, s, Unbounded, st, v);
        if v != s {
          assert HasParent(adj, s, Unbounded, st, v);
        }
      } else {
        forall k: nat ensures !ReachIn(adj, s, v, k) {
          Unreached(adj, s, Unbounded, st, v, k);
        }
      }
    }
    assert Settled(adj, s, Unbounded, st, [], s);
  }

  /** n copies of u. */
  function Copies<V>(u: V, n: nat): (r: seq<V>)
    ensures |r| == n && forall i | 0 <= i < n :: r[i] == u
  {
    seq(n, _ => u)
  }

  /** The list of recommend_friends_for_user against the search state:
    * discovered lists, once each, the vertices other than s discovered at a
    * layer within the limit, and encountered[i] is the predecessor (pi) of
    * discovered[i]. */
  ghost predicate Recorded<V>(adj: map<V, set<V>>, s: V, limit: Limit, st: map<V, Mark<V>>,
                              discovered: seq<V>, encountered: seq<V>)
    requires st.Keys == adj.Keys
  {
    && |discovered| == |encountered|
    && (forall i | 0 <= i < |discovered| :: discovered[i] in adj && st[discovered[i]].pi == Some(encountered[i]))
    && (forall i, j | 0 <= i < j < |discovered| :: discovered[i] != discovered[j])
    && (forall v | v in adj :: v in discovered <==> v != s && st[v].color != White && Within(limit, Level(st[v].d)))
  }

  /** Lines 160-162: every vertex the scan of u puts on the queue is
    * recorded, with u appended to the list once for each of them. */
  lemma RecordRound<V>(adj: map<V, set<V>>, s: V, limit: Limit, st0: map<V, Mark<V>>, u: V, mid: map<V, Mark<V>>,
                       st: map<V, Mark<V>>, found: seq<V>, queued: seq<V>, discovered: seq<V>, encountered: seq<V>)
    requires Closed(adj) && st0.Keys == adj.Keys && s in adj && st0[s].color != White
    requires u in adj && st0[u].color != White && st0[u].d.Fin?
    requires Painted(adj, u, st0, Mark(Gray, Fin(st0[u].d.n + 1), Some(u)), {}, mid) && Found(adj, u, st0, {}, found)
    requires queued == if Within(limit, st0[u].d.n + 1) then found else []
    requires st == mid[u := mid[u].(color := Black)]
    requires Recorded(adj, s, limit, st0, discovered, encountered)
    ensures Recorded(adj, s, limit, st, discovered + queued, encountered + Copies(u, |queued|))
  {
    var m := Mark(Gray, Fin(st0[u].d.n + 1), Some(u));
    var disc, enc := discovered + queued, encountered + Copies(u, |queued|);
    forall i | 0 <= i < |disc| ensures disc[i] in adj && st[disc[i]].pi == Some(enc[i]) {
      if i < |discovered| {
        assert disc[i] == discovered[i] && enc[i] == encountered[i];
        assert discovered[i] in discovered;
      } else {
        assert disc[i] == found[i - |discovered|] && enc[i] == u;
      }
    }
    forall i, j | 0 <= i < j < |disc| ensures disc[i] != disc[j] {
      if j < |discovered| {
        assert disc[i] == discovered[i] && disc[j] == discovered[j];
      } else if i < |discovered| {
        assert disc[i] == discovered[i] && disc[j] == found[j - |discovered|];
        assert discovered[i] in discovered;
      } else {
        assert disc[i] == found[i - |discovered|] && disc[j] == found[j - |discovered|];
      }
    }
    forall v | v in adj ensures v in disc <==> v != s && st[v].color != White && Within(limit, Level(st[v].d)) {
      if v in adj[u] && st0[v].color == White {
        assert v in found && v != u && st[v] == m;
      } else {
        assert st[v].color != White <==> st0[v].color != White;
        assert st[v].d == st0[v].d;
        assert v !in queued;
      }
    }
  }

  /** A list without repetitions has as many elements as its set. */
  lemma {:induction false} DistinctCard<T>(xs: seq<T>)
    requires forall i, j | 0 <= i < j < |xs| :: xs[i] != xs[j]
    ensures |set x | x in xs| == |xs|
  {
    if xs != [] {
      var t := xs[1..];
      forall i, j | 0 <= i < j < |t| ensures t[i] != t[j] {
        assert t[i] == xs[i + 1] && t[j] == xs[j + 1];
      }
      DistinctCard(t);
      assert (set x | x in xs) == (set x | x in t) + {xs[0]};
      assert xs[0] !in t;
    }
  }

  /** discovered lists its vertices in non-decreasing layer order: the order
    * of a FIFO queue. */
  ghost predicate Ordered<V>(st: map<V, Mark<V>>, discovered: seq<V>)
  {
    forall i, j | 0 <= i < j < |discovered| && discovered[i] in st && discovered[j] in st ::
      Level(st[discovered[i]].d) <= Level(st[discovered[j]].d)
  }

  /** Lines 160-161: the vertices the scan of u queues sit one layer beyond
    * u, which is at or beyond every vertex discovered so far, so appending
    * them keeps the layer order. */
  lemma OrderRound<V>(adj: map<V, set<V>>, limit: Limit, st0: map<V, Mark<V>>, u: V, mid: map<V, Mark<V>>,
                      st: map<V, Mark<V>>, found: seq<V>, queued: seq<V>, discovered: seq<V>)
    requires Closed(adj) && st0.Keys == adj.Keys && u in adj && st0[u].color != White && st0[u].d.Fin?
    requires Bounded(st0, Level(st0[u].d) + 1)
    requires Painted(adj, u, st0, Mark(Gray, Fin(st0[u].d.n + 1), Some(u)), {}, mid) && Found(adj, u, st0, {}, found)
    requires queued == if Within(limit, st0[u].d.n + 1) then found else []
    requires st == mid[u := mid[u].(color := Black)]
    requires forall i | 0 <= i < |discovered| :: discovered[i] in adj && st0[discovered[i]].color != White
    requires Ordered(st0, discovered)
    ensures Ordered(st, discovered + queued)
  {
    var disc := discovered + queued;
    var top := Level(st0[u].d) + 1;
    forall i | 0 <= i < |disc| ensures disc[i] in st && Level(st[disc[i]].d) <= top
      ensures i < |discovered| ==> Level(st[disc[i]].d) == Level(st0[disc[i]].d)
      ensures i >= |discovered| ==> Level(st[disc[i]].d) == top
    {
      if i < |discovered| {
        assert disc[i] == discovered[i];
      } else {
        assert disc[i] == found[i - |discovered|];
      }
    }
  }

  /** One iteration of `while Q` at lines 153-164: Visit, and u appended
    * to the list once for each vertex the scan queued. queued is what joins
    * the back of Q, and discovered grows by exactly those vertices. */
  method VisitRecording<V>(g: DiGraph<V>, s: V, limit: Limit, st0: map<V, Mark<V>>, q0: seq<V>,
                           encountered0: seq<V>, ghost discovered0: seq<V>)
    returns (st: map<V, Mark<V>>, q: seq<V>, queued: seq<V>, encountered: seq<V>, ghost discovered: seq<V>,
             ghost mid: map<V, Mark<V>>)
    requires Closed(g.edges) && Labelled(g.edges, s, limit, st0)
    requires Frontier(g.edges, s, limit, st0, q0) && q0 != []
    requires Recorded(g.edges, s, limit, st0, discovered0, encountered0) && Ordered(st0, discovered0)
    ensures Labelled(g.edges, s, limit, st) && Frontier(g.edges, s, limit, st, q)
    ensures q0[0] !in Blackened(st0)
    ensures forall v :: v in Blackened(st) <==> v in Blackened(st0) || v == q0[0]
    ensures Recorded(g.edges, s, limit, st, discovered, encountered) && Ordered(st, discovered)
    ensures q == q0[1..] + queued
    ensures discovered == discovered0 + queued
    ensures encountered == encountered0 + Copies(q0[0], |queued|)
    ensures q0[0] in g.edges && st0[q0[0]].color != White && st0[q0[0]].d.Fin?
    ensures Painted(g.edges, q0[0], st0, Mark(Gray, Fin(st0[q0[0]].d.n + 1), Some(q0[0])), {}, mid)
    ensures st == mid[q0[0] := mid[q0[0]].(color := Black)]
  {
    var u := q0[0];
    ghost var found;
    st, q, queued, mid, found := Visit(g, s, limit, st0, q0);
    RecordRound(g.edges, s, limit, st0, u, mid, st, found, queued, discovered0, encountered0);
    OrderRound(g.edges, limit, st0, u, mid, st, found, queued, discovered0);
    encountered := encountered0 + Copies(u, |queued|);
    discovered := discovered0 + queued;
  }

  /** recommend_friends_for_user(G, s, max_depth). The search is bfs that
    * queues only vertices at layer max_depth or less; for each vertex it
    * queues it appends u, the vertex being scanned (line 162), so the list
    * holds predecessors, may repeat them and may hold s itself, although the
    * docstring (lines 130-131) calls it the vertices encountered. discovered,
    * alongside, holds the queued vertices themselves, in the same order. */
  method RecommendFriendsForUser<V>(g: DiGraph<V>, s: V, maxDepth: int)
    returns (encountered: seq<V>, st: map<V, Mark<V>>, ghost discovered: seq<V>)
    requires Closed(g.edges) && s in g.edges
    ensures st.Keys == g.edges.Keys
    ensures st[s] == Mark(Black, Fin(0), None)
    ensures |encountered| == |discovered|
    ensures forall i, j | 0 <= i < j < |discovered| :: discovered[i] != discovered[j]
    ensures forall v | v in g.edges :: v in discovered <==> v != s && ReachableWithin(g.edges, s, v, maxDepth)
    ensures |encountered| == |set v | v in g.edges && v != s && ReachableWithin(g.edges, s, v, maxDepth)|
    ensures forall i | 0 <= i < |discovered| ::
      && discovered[i] in g.edges && encountered[i] in g.edges && discovered[i] in g.edges[encountered[i]]
      && st[discovered[i]].pi == Some(encountered[i]) && st[encountered[i]].d.Fin?
      && st[discovered[i]].d == Fin(st[encountered[i]].d.n + 1) && st[discovered[i]].d.n <= maxDepth
    ensures forall i | 0 <= i < |encountered| :: encountered[i] in g.edges && ReachableWithin(g.edges, s, encountered[i], maxDepth - 1)
    ensures forall i, j | 0 <= i < j < |discovered| :: st[discovered[i]].d.n <= st[discovered[j]].d.n
    ensures forall i, j | 0 <= i < j < |encountered| :: st[encountered[i]].d.n <= st[encountered[j]].d.n
    ensures forall v | v in st :: st[v].color == Black <==> v == s || (st[v].d.Fin? && st[v].d.n <= maxDepth)
    ensures forall v | v in st && st[v].d.Fin? :: ShortestDist(g.edges, s, v, st[v].d.n)
    ensures forall v | v in st && st[v].d.Inf? :: st[v].color == White && !ReachableWithin(g.edges, s, v, maxDepth + 1)
  {
    ghost var adj := g.edges;
    var limit := AtMost(maxDepth);
    st := Initialise(g, s);
    Start(adj, s, limit, st);
    var q := [s];
    encountered, discovered := [], [];
    while q != []
      invariant Labelled(adj, s, limit, st)
      invariant Frontier(adj, s, limit, st, q)
      invariant Blackened(st) <= adj.Keys
      invariant Recorded(adj, s, limit, st, discovered, encountered) && Ordered(st, discovered)
      decreases adj.Keys - Blackened(st)
    {
      var queued;
      ghost var mid;
      st, q, queued, encountered, discovered, mid := VisitRecording(g, s, limit, st, q, encountered, discovered);
    }
    LimitedOutcome(adj, s, maxDepth, st, discovered);
    RecordOutcome(adj, s, maxDepth, st, discovered, encountered);
    OrderOutcome(st, discovered, encountered);
  }

  /** The queued vertices come in non-decreasing layer order, and so do
    * their predecessors, one layer closer each. */
  lemma OrderOutcome<V>(st: map<V, Mark<V>>, discovered: seq<V>, encountered: seq<V>)
    requires |encountered| == |discovered| && Ordered(st, discovered)
    requires forall i | 0 <= i < |discovered| ::
      && discovered[i] in st && encountered[i] in st && st[encountered[i]].d.Fin?
      && st[discovered[i]].d == Fin(st[encountered[i]].d.n + 1)
    ensures forall i, j | 0 <= i < j < |discovered| :: st[discovered[i]].d.n <= st[discovered[j]].d.n
    ensures forall i, j | 0 <= i < j < |encountered| :: st[encountered[i]].d.n <= st[encountered[j]].d.n
  {
    forall i, j | 0 <= i < j < |discovered| ensures st[discovered[i]].d.n <= st[discovered[j]].d.n {
      assert Level(st[discovered[i]].d) <= Level(st[discovered[j]].d);
    }
  }

  /** What the emptied queue leaves behind under the limit max_depth, vertex
    * by vertex. */
  lemma LimitedOutcome<V>(adj: map<V, set<V>>, s: V, maxDepth: int, st: map<V, Mark<V>>, discovered: seq<V>)
    requires Closed(adj) && Labelled(adj, s, AtMost(maxDepth), st)
    requires Frontier(adj, s, AtMost(maxDepth), st, [])
    requires forall v | v in adj ::
      v in discovered <==> v != s && st[v].color != White && Within(AtMost(maxDepth), Level(st[v].d))
    ensures st[s] == Mark(Black, Fin(0), None)
    ensures forall v | v in adj :: v in discovered <==> v != s && ReachableWithin(adj, s, v, maxDepth)
    ensures forall v | v in st :: st[v].color == Black <==> v == s || (st[v].d.Fin? && st[v].d.n <= maxDepth)
    ensures forall v | v in st && st[v].d.Fin? :: ShortestDist(adj, s, v, st[v].d.n)
    ensures forall v | v in st && st[v].d.Inf? :: st[v].color == White && !ReachableWithin(adj, s, v, maxDepth + 1)
  {
    var limit := AtMost(maxDepth);
    forall v | v in adj
      ensures v in discovered <==> v != s && ReachableWithin(adj, s, v, maxDepth)
      ensures st[v].color == Black <==> v == s || (st[v].d.Fin? && st[v].d.n <= maxDepth)
      ensures st[v].d.Fin? ==> ShortestDist(adj, s, v, st[v].d.n)
      ensures st[v].d.Inf? ==> st[v].color == White && !ReachableWithin(adj, s, v, maxDepth + 1)
    {
      assert LabelOk(adj, s, limit, st, v);
      assert Settled(adj, s, limit, st, [], v);
      if st[v].d.Fin? {
        Shortest(adj, s, limit, st, v);
      } else {
        forall k: nat | k <= maxDepth + 1 ensures !ReachIn(adj, s, v, k) {
          Unreached(adj, s, limit, st, v, k);
        }
      }
      if v != s && ReachableWithin(adj, s, v, maxDepth) {
        var k: nat :| k <= maxDepth && ReachIn(adj, s, v, k);
        Reached(adj, s, limit, st, v, k);
      }
    }
    assert Settled(adj, s, limit, st, [], s);
  }

  /** What the list records: the predecessors, within max_depth - 1 of s, of
    * the vertices discovered within max_depth, one per such vertex. */
  lemma RecordOutcome<V>(adj: map<V, set<V>>, s: V, maxDepth: int, st: map<V, Mark<V>>,
                         discovered: seq<V>, encountered: seq<V>)
    requires Closed(adj) && Labelled(adj, s, AtMost(maxDepth), st)
    requires Recorded(adj, s, AtMost(maxDepth), st, discovered, encountered)
    requires forall v | v in adj :: v in discovered <==> v != s && ReachableWithin(adj, s, v, maxDepth)
    requires forall v | v in st && st[v].d.Fin? :: ShortestDist(adj, s, v, st[v].d.n)
    ensures |encountered| == |set v | v in adj && v != s && ReachableWithin(adj, s, v, maxDepth)|
    ensures forall i | 0 <= i < |discovered| ::
      && discovered[i] in adj && encountered[i] in adj && discovered[i] in adj[encountered[i]]
      && st[discovered[i]].pi == Some(encountered[i]) && st[encountered[i]].d.Fin?
      && st[discovered[i]].d == Fin(st[encountered[i]].d.n + 1) && st[discovered[i]].d.n <= maxDepth
    ensures forall i | 0 <= i < |encountered| :: encountered[i] in adj && ReachableWithin(adj, s, encountered[i], maxDepth - 1)
  {
    var limit := AtMost(maxDepth);
    forall i | 0 <= i < |discovered|
      ensures && discovered[i] in adj && encountered[i] in adj && discovered[i] in adj[encountered[i]]
              && st[discovered[i]].pi == Some(encountered[i]) && st[encountered[i]].d.Fin?
              && st[discovered[i]].d == Fin(st[encountered[i]].d.n + 1) && st[discovered[i]].d.n <= maxDepth
      ensures ReachableWithin(adj, s, encountered[i], maxDepth - 1)
    {
      var v := discovered[i];
      assert v in discovered;
      assert LabelOk(adj, s, limit, st, v);
      assert HasParent(adj, s, limit, st, v);
      var u := encountered[i];
      assert ShortestDist(adj, s, u, st[u].d.n);
    }
    DistinctCard(discovered);
    assert (set v | v in discovered) == (set v | v in adj && v != s && ReachableWithin(adj, s, v, maxDepth));
  }
}
