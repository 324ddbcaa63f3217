/** recommend_all_friends (graphs.py:167-185): a depth-limited search from
  * every vertex, and a fresh friend graph holding, in both directions, each
  * pair (u, v) with v in u's list, v other than u, and no edge v -> u in G. */
module Recommend {
  import opened DiGraphs
  import opened Search

  /** What recommend_friends_for_user promises about the list ts it returns
    * from s, against disc, the vertices it queued, in the same order: disc
    * holds, once each, the vertices other than s within max_depth of s, and
    * ts[i] is an in-neighbour of disc[i] one shortest layer closer to s,
    * hence within max_depth - 1 of s. */
  ghost predicate TargetList<V>(adj: map<V, set<V>>, s: V, maxDepth: int, ts: seq<V>, disc: seq<V>)
  {
    && |disc| == |ts|
    && (forall i, j | 0 <= i < j < |disc| :: disc[i] != disc[j])
    && (forall v | v in adj :: v in disc <==> v != s && ReachableWithin(adj, s, v, maxDepth))
    && (forall i | 0 <= i < |ts| ::
          && ts[i] in adj && disc[i] in adj && disc[i] in adj[ts[i]]
          && ReachableWithin(adj, s, ts[i], maxDepth - 1)
          && exists k: nat :: ShortestDist(adj, s, ts[i], k) && ShortestDist(adj, s, disc[i], k + 1))
  }

  /** The list has one entry per vertex other than s within max_depth of s. */
  lemma ListLength<V>(adj: map<V, set<V>>, s: V, maxDepth: int, ts: seq<V>, disc: seq<V>)
    requires TargetList(adj, s, maxDepth, ts, disc)
    ensures |ts| == |set v | v in adj && v != s && ReachableWithin(adj, s, v, maxDepth)|
  {
    DistinctCard(disc);
    assert (set v | v in disc) == (set v | v in adj && v != s && ReachableWithin(adj, s, v, maxDepth));
  }

  /** The pairs (u, v) that the loop at lines 179-183 adds for the source u
    * and its list ts. */
  ghost function Proposed<V>(adj: map<V, set<V>>, u: V, ts: seq<V>): set<(V, V)>
  {
    set v | v in ts && u != v && !Linked(adj, v, u) :: (u, v)
  }

  /** The pairs added for every source in targets. */
  ghost function AllProposed<V>(adj: map<V, set<V>>, targets: map<V, seq<V>>): set<(V, V)>
  {
    set u, v | u in targets && v in targets[u] && u != v && !Linked(adj, v, u) :: (u, v)
  }

  /** A set of pairs together with the reversed pairs. */
  ghost function Mirror<V>(p: set<(V, V)>): set<(V, V)>
  {
    p + set e | e in p :: (e.1, e.0)
  }

  /** The vertices that some pair starts from. */
  ghost function Sources<V>(p: set<(V, V)>): set<V>
  {
    set e | e in p :: e.0
  }

  /** The recommendations are symmetric and free of self-loops, and each
    * pair is backed by one of its ends: the other end is on that end's list
    * and G has no edge from the other end back to it. */
  lemma MirrorShape<V>(adj: map<V, set<V>>, targets: map<V, seq<V>>, a: V, b: V)
    requires (a, b) in Mirror(AllProposed(adj, targets))
    ensures (b, a) in Mirror(AllProposed(adj, targets))
    ensures a != b
    ensures || (a in targets && b in targets[a] && !Linked(adj, b, a))
            || (b in targets && a in targets[b] && !Linked(adj, a, b))
  {
    var p := AllProposed(adj, targets);
    if (a, b) !in p {
      var e :| e in p && (e.1, e.0) == (a, b);
      assert (b, a) in p;
    }
  }

  /** Every pair recommended for some source is in the friend graph, both
    * ways round. */
  lemma Recommended<V>(adj: map<V, set<V>>, targets: map<V, seq<V>>, u: V, v: V)
    requires u in targets && v in targets[u] && u != v && !Linked(adj, v, u)
    ensures (u, v) in Mirror(AllProposed(adj, targets)) && (v, u) in Mirror(AllProposed(adj, targets))
  {
    assert (u, v) in AllProposed(adj, targets);
  }

  /** With every list as recommend_friends_for_user leaves it, a
    * recommended pair joins two vertices of G, one of which lies within
    * max_depth - 1 of the other with no edge of G back from it. */
  lemma Sound<V>(adj: map<V, set<V>>, maxDepth: int, targets: map<V, seq<V>>, reached: map<V, seq<V>>, a: V, b: V)
    requires forall u | u in targets :: u in adj && u in reached && TargetList(adj, u, maxDepth, targets[u], reached[u])
    requires (a, b) in Mirror(AllProposed(adj, targets))
    ensures a in adj && b in adj && a != b
    ensures || (ReachableWithin(adj, a, b, maxDepth - 1) && !Linked(adj, b, a))
            || (ReachableWithin(adj, b, a, maxDepth - 1) && !Linked(adj, a, b))
  {
    MirrorShape(adj, targets, a, b);
    if a in targets && b in targets[a] && !Linked(adj, b, a) {
      var i :| 0 <= i < |targets[a]| && targets[a][i] == b;
    } else {
      var i :| 0 <= i < |targets[b]| && targets[b][i] == a;
    }
  }

  /** Every vertex v other than u within max_depth of u has, on u's list,
    * an in-neighbour w one shortest layer closer to u; the friend graph
    * links u and w both ways unless w is u or G has the edge w -> u. */
  lemma Complete<V>(adj: map<V, set<V>>, maxDepth: int, targets: map<V, seq<V>>, reached: map<V, seq<V>>, u: V, v: V)
    requires u in targets && u in reached && TargetList(adj, u, maxDepth, targets[u], reached[u])
    requires v in adj && v != u && ReachableWithin(adj, u, v, maxDepth)
    ensures exists w ::
      && w in targets[u] && w in adj && v in adj[w]
      && (exists k: nat :: ShortestDist(adj, u, w, k) && ShortestDist(adj, u, v, k + 1))
      && (w != u && !Linked(adj, w, u) ==>
            (u, w) in Mirror(AllProposed(adj, targets)) && (w, u) in Mirror(AllProposed(adj, targets)))
  {
    var i :| 0 <= i < |reached[u]| && reached[u][i] == v;
    var w := targets[u][i];
    assert w in targets[u];
    if w != u && !Linked(adj, w, u) {
      Recommended(adj, targets, u, w);
    }
  }

  /** Extending the list prefix by one entry adds at most that entry's pair. */
  lemma ProposedStep<V>(adj: map<V, set<V>>, u: V, ts: seq<V>, i: nat)
    requires i < |ts|
    ensures Proposed(adj, u, ts[..i + 1]) ==
      Proposed(adj, u, ts[..i]) + if u != ts[i] && !Linked(adj, ts[i], u) then {(u, ts[i])} else {}
  {
    assert ts[..i + 1] == ts[..i] + [ts[i]];
  }

  /** How many entries of ts the loop at lines 179-183 befriends with u,
    * an entry that occurs twice counted twice. */
  ghost function Befriended<V>(adj: map<V, set<V>>, u: V, ts: seq<V>): (n: nat)
    ensures n <= |ts|
    ensures n == 0 <==> Proposed(adj, u, ts) == {}
  {
    if ts == [] then 0
    else
      var last := ts[|ts| - 1];
      assert ts == ts[..|ts| - 1] + [last];
      assert Proposed(adj, u, ts) ==
        Proposed(adj, u, ts[..|ts| - 1]) + if u != last && !Linked(adj, last, u) then {(u, last)} else {};
      Befriended(adj, u, ts[..|ts| - 1]) + if u != last && !Linked(adj, last, u) then 1 else 0
  }

  /** The count for the first i + 1 entries, from the count for the first i. */
  lemma BefriendedStep<V>(adj: map<V, set<V>>, u: V, ts: seq<V>, i: nat)
    requires i < |ts|
    ensures Befriended(adj, u, ts[..i + 1]) ==
      Befriended(adj, u, ts[..i]) + if u != ts[i] && !Linked(adj, ts[i], u) then 1 else 0
  {
    assert ts[..i + 1][..i] == ts[..i];
  }

  lemma PairsStart<V>(adj: map<V, set<V>>, before: set<(V, V)>, u: V, ts: seq<V>)
    ensures before + Proposed(adj, u, ts[..0]) == before
  {
  }

  lemma PairsEnd<V>(adj: map<V, set<V>>, before: set<(V, V)>, u: V, ts: seq<V>)
    ensures before + Proposed(adj, u, ts[..|ts|]) == before + Proposed(adj, u, ts)
    ensures Befriended(adj, u, ts[..|ts|]) == Befriended(adj, u, ts)
  {
    assert ts[..|ts|] == ts;
  }

  /** One turn of the loop at lines 179-183 keeps the friend graph equal to
    * the mirrored proposals so far, its vertices their sources. */
  lemma PairsStep<V>(adj: map<V, set<V>>, before: set<(V, V)>, u: V, ts: seq<V>, i: nat,
                     e0: set<(V, V)>, k0: set<V>, e1: set<(V, V)>, k1: set<V>)
    requires i < |ts|
    requires e0 == Mirror(before + Proposed(adj, u, ts[..i])) && k0 == Sources(e0)
    requires forall e :: e in e1 <==> e in e0 || (u != ts[i] && !Linked(adj, ts[i], u) && (e == (u, ts[i]) || e == (ts[i], u)))
    requires forall x :: x in k1 <==> x in k0 || (u != ts[i] && !Linked(adj, ts[i], u) && (x == u || x == ts[i]))
    ensures e1 == Mirror(before + Proposed(adj, u, ts[..i + 1])) && k1 == Sources(e1)
  {
    ProposedStep(adj, u, ts, i);
    var p := before + Proposed(adj, u, ts[..i]);
    if u != ts[i] && !Linked(adj, ts[i], u) {
      MirrorAdd(p, u, ts[i]);
      assert e1 == e0 + {(u, ts[i]), (ts[i], u)} && k1 == k0 + {u, ts[i]};
      assert before + Proposed(adj, u, ts[..i + 1]) == p + {(u, ts[i])};
    } else {
      assert e1 == e0 && k1 == k0;
      assert before + Proposed(adj, u, ts[..i + 1]) == p;
    }
  }

  /** Adding the list of a new source adds its proposals. */
  lemma ProposedSource<V>(adj: map<V, set<V>>, targets: map<V, seq<V>>, u: V, ts: seq<V>)
    requires u !in targets
    ensures AllProposed(adj, targets[u := ts]) == AllProposed(adj, targets) + Proposed(adj, u, ts)
  {
    var t' := targets[u := ts];
    forall e | e in AllProposed(adj, t') ensures e in AllProposed(adj, targets) + Proposed(adj, u, ts) {
      var (x, y) := e;
      if x != u {
        assert x in targets && y in targets[x];
      }
    }
    forall e | e in AllProposed(adj, targets) + Proposed(adj, u, ts) ensures e in AllProposed(adj, t') {
      var (x, y) := e;
      if e in AllProposed(adj, targets) {
        assert x in t' && y in t'[x];
      }
    }
  }

  /** Inserting a pair and its reverse mirrors the insertion of the pair. */
  lemma MirrorAdd<V>(p: set<(V, V)>, a: V, b: V)
    ensures Mirror(p + {(a, b)}) == Mirror(p) + {(a, b), (b, a)}
    ensures Sources(Mirror(p + {(a, b)})) == Sources(Mirror(p)) + {a, b}
  {
    var m, m' := Mirror(p), Mirror(p + {(a, b)});
    assert (b, a) in m';
    forall e | e in m' ensures e in m + {(a, b), (b, a)} {
      if e !in p + {(a, b)} {
        var f :| f in p + {(a, b)} && e == (f.1, f.0);
        if f != (a, b) {
          assert e in m;
        }
      }
    }
    assert m' == m + {(a, b), (b, a)};
    forall x | x in Sources(m') ensures x in Sources(m) + {a, b} {
      var e :| e in m' && e.0 == x;
    }
    forall x | x in Sources(m) + {a, b} ensures x in Sources(m') {
      if x == a {
        assert (a, b) in m';
      } else if x == b {
        assert (b, a) in m';
      } else {
        var e :| e in m && e.0 == x;
        assert e in m';
      }
    }
  }

  /** The fresh friend graph holds the proposals of no source. */
  lemma NothingProposed<V>(adj: map<V, set<V>>, maxDepth: int, fe: map<V, set<V>>)
    requires fe == map[]
    ensures Built(adj, maxDepth, map[], map[], fe)
  {
    assert AllProposed(adj, map[]) == {};
    assert EdgePairs(fe) == {};
  }

  /** The friend graph fe once the sources in targets are done: every list
    * is as recommend_friends_for_user promises against the vertices reached
    * from its source, fe holds exactly the mirrored proposals, and its
    * vertices are the sources of its edges. */
  ghost predicate Built<V>(adj: map<V, set<V>>, maxDepth: int, targets: map<V, seq<V>>, reached: map<V, seq<V>>,
                           fe: map<V, set<V>>)
  {
    && (forall u | u in targets :: u in reached && TargetList(adj, u, maxDepth, targets[u], reached[u]))
    && EdgePairs(fe) == Mirror(AllProposed(adj, targets))
    && fe.Keys == Sources(EdgePairs(fe))
  }

  /** The proposals for a new source u complete the friend graph for
    * targets[u := ts]. */
  lemma Extend<V>(adj: map<V, set<V>>, maxDepth: int, targets: map<V, seq<V>>, reached: map<V, seq<V>>,
                  u: V, ts: seq<V>, disc: seq<V>, fe: map<V, set<V>>)
    requires u !in targets && TargetList(adj, u, maxDepth, ts, disc)
    requires forall w | w in targets :: w in reached && TargetList(adj, w, maxDepth, targets[w], reached[w])
    requires EdgePairs(fe) == Mirror(AllProposed(adj, targets) + Proposed(adj, u, ts))
    requires fe.Keys == Sources(EdgePairs(fe))
    ensures Built(adj, maxDepth, targets[u := ts], reached[u := disc], fe)
  {
    ProposedSource(adj, targets, u, ts);
  }

  /** recommend_all_friends(G, max_depth). targets[u] is the list that
    * recommend_friends_for_user returned for the source u, reached[u] the
    * vertices its search queued. The friend graph
    * holds exactly the mirrored proposals, and its vertices are exactly the
    * vertices that some recommendation starts from. */
  method RecommendAllFriends<V>(g: DiGraph<V>, maxDepth: int)
    returns (friends: DiGraph<V>, ghost targets: map<V, seq<V>>, ghost reached: map<V, seq<V>>)
    requires Closed(g.edges)
    ensures fresh(friends) && friends.Valid()
    ensures targets.Keys == g.edges.Keys
    ensures forall u | u in targets :: u in reached && TargetList(g.edges, u, maxDepth, targets[u], reached[u])
    ensures EdgePairs(friends.edges) == Mirror(AllProposed(g.edges, targets))
    ensures friends.edges.Keys == Sources(EdgePairs(friends.edges))
  {
    friends := new DiGraph();
    targets, reached := map[], map[];
    NothingProposed(g.edges, maxDepth, friends.edges);
    var pending := g.edges.Keys;
    while pending != {}
      invariant pending <= g.edges.Keys
      invariant forall x :: x in targets <==> x in g.edges && x !in pending
      invariant fresh(friends) && friends.Valid()
      invariant Built(g.edges, maxDepth, targets, reached, friends.edges)
      decreases pending
    {
      var u :| u in pending;
      var ts;
      ghost var disc;
      ts, disc := Recommend(g, friends, maxDepth, u, targets, reached);
      targets, reached := targets[u := ts], reached[u := disc];
      pending := pending - {u};
    }
  }

  /** Lines 175-183 for the source u: its list, and the pairs it adds, each
    * with two add_edge calls. */
  method Recommend<V>(g: DiGraph<V>, friends: DiGraph<V>, maxDepth: int, u: V,
                      ghost targets: map<V, seq<V>>, ghost reached: map<V, seq<V>>)
    returns (ts: seq<V>, ghost disc: seq<V>)
    requires Closed(g.edges) && u in g.edges
    requires friends != g && friends.Valid() && u !in targets && Built(g.edges, maxDepth, targets, reached, friends.edges)
    modifies friends
    ensures friends.Valid() && Built(g.edges, maxDepth, targets[u := ts], reached[u := disc], friends.edges)
    ensures friends.numEdges == old(friends.numEdges) + 2 * Befriended(g.edges, u, ts)
  {
    ts, disc := Targets(g, u, maxDepth);
    AddPairs(g, friends, maxDepth, u, ts, disc, targets, reached);
  }

  /** Line 177: the list recommend_friends_for_user returns for the source
    * u (the vertex fields it leaves behind are not read again). */
  method Targets<V>(g: DiGraph<V>, u: V, maxDepth: int) returns (ts: seq<V>, ghost discovered: seq<V>)
    requires Closed(g.edges) && u in g.edges
    ensures TargetList(g.edges, u, maxDepth, ts, discovered)
  {
    var st;
    ts, st, discovered := RecommendFriendsForUser(g, u, maxDepth);
    forall i | 0 <= i < |ts|
      ensures exists k: nat :: ShortestDist(g.edges, u, ts[i], k) && ShortestDist(g.edges, u, discovered[i], k + 1)
    {
      var k := st[ts[i]].d.n;
      assert ShortestDist(g.edges, u, ts[i], k) && ShortestDist(g.edges, u, discovered[i], k + 1);
    }
  }

  /** Lines 179-183 for the source u and its list ts: each entry v other
    * than u with no edge v -> u in G is befriended with u both ways. */
  method AddPairs<V>(g: DiGraph<V>, friends: DiGraph<V>, ghost maxDepth: int, u: V, ts: seq<V>, ghost disc: seq<V>,
                     ghost targets: map<V, seq<V>>, ghost reached: map<V, seq<V>>)
    requires friends != g && friends.Valid() && u !in targets
    requires TargetList(g.edges, u, maxDepth, ts, disc) && Built(g.edges, maxDepth, targets, reached, friends.edges)
    modifies friends
    ensures friends.Valid()
    ensures Built(g.edges, maxDepth, targets[u := ts], reached[u := disc], friends.edges)
    ensures friends.numEdges == old(friends.numEdges) + 2 * Befriended(g.edges, u, ts)
  {
    ghost var before := AllProposed(g.edges, targets);
    ghost var n0 := friends.numEdges;
    var i := 0;
    PairsStart(g.edges, before, u, ts);
    while i < |ts|
      invariant 0 <= i <= |ts|
      invariant friends.Valid()
      invariant EdgePairs(friends.edges) == Mirror(before + Proposed(g.edges, u, ts[..i]))
      invariant friends.edges.Keys == Sources(EdgePairs(friends.edges))
      invariant friends.numEdges == n0 + 2 * Befriended(g.edges, u, ts[..i])
    {
      AddPair(g, friends, u, ts, i, before);
      BefriendedStep(g.edges, u, ts, i);
      i := i + 1;
    }
    PairsEnd(g.edges, before, u, ts);
    Extend(g.edges, maxDepth, targets, reached, u, ts, disc, friends.edges);
  }

  /** One turn of the loop at lines 179-183: the entry v = ts[i] is
    * befriended with u when it is not u and G has no edge v -> u. */
  method AddPair<V>(g: DiGraph<V>, friends: DiGraph<V>, u: V, ts: seq<V>, i: nat, ghost before: set<(V, V)>)
    requires i < |ts| && friends != g && friends.Valid()
    requires EdgePairs(friends.edges) == Mirror(before + Proposed(g.edges, u, ts[..i]))
    requires friends.edges.Keys == Sources(EdgePairs(friends.edges))
    modifies friends
    ensures friends.Valid()
    ensures EdgePairs(friends.edges) == Mirror(before + Proposed(g.edges, u, ts[..i + 1]))
    ensures friends.edges.Keys == Sources(EdgePairs(friends.edges))
    ensures friends.numEdges == old(friends.numEdges) + if u != ts[i] && !Linked(g.edges, ts[i], u) then 2 else 0
  {
    var v := ts[i];
    ghost var e0, k0 := EdgePairs(friends.edges), friends.edges.Keys;
    var linked := g.EdgeExists(v, u);
    assert linked == Linked(g.edges, v, u);
    if u != v && !linked {
      Befriend(friends, u, v);
    }
    PairsStep(g.edges, before, u, ts, i, e0, k0, EdgePairs(friends.edges), friends.edges.Keys);
  }

  /** Lines 182-183: the edge u -> v, then the edge v -> u. */
  method Befriend<V>(friends: DiGraph<V>, u: V, v: V)
    requires friends.Valid()
    modifies friends
    ensures friends.Valid()
    ensures forall e :: e in EdgePairs(friends.edges) <==> e in old(EdgePairs(friends.edges)) || e == (u, v) || e == (v, u)
    ensures forall x :: x in friends.edges <==> x in old(friends.edges) || x == u || x == v
    ensures friends.numEdges == old(friends.numEdges) + 2
  {
    friends.AddEdge(u, v);
    friends.AddEdge(v, u);
  }
}
