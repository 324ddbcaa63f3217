# Friend recommendation over a directed graph, in Dafny

This project models `graphs.py`, a small friend-recommendation program.
Its parts are:

- a directed graph (`DiGraph`): a dictionary from each vertex to the set of its destinations, with a vertex counter and an edge counter;
- a three-colour breadth-first search (`bfs`);
- a depth-limited variant of it (`recommend_friends_for_user`). It returns one list entry per vertex other than the source that it queues;
- `recommend_all_friends`. It runs that search from every vertex. It builds a fresh graph of symmetric "friend" pairs: each pair (u, v) is added in both directions when v is on u's list, v is not u, and the input graph has no edge v -> u;
- `precision` and `recall`. They compare a recommendation graph with a testing graph, edge by edge.

Files:

- `digraph.dfy` (module `DiGraphs`):
  - the `DiGraph` class. Its fields are `edges: map<V, set<V>>`, `numVertices` and `numEdges`. `Valid()` says that every destination is a vertex, that the vertex counter equals the number of keys, and that the edge counter is at least the number of distinct edges.
  - the reachability notions the searches are specified against: `ReachIn`, `ReachableWithin` and `ShortestDist`.
  - `edge_set`, both as documented and as written.
- `search.dfy` (module `Search`):
  - `bfs` and `recommend_friends_for_user` as methods with `while` loops.
  - In Python, `color`, `d` and `pi` are mutable fields of the shared `Vertex` objects. Here they are one `Mark` per vertex in a map. The search builds that map and returns it. `sys.maxsize` is the `Inf` distance.
  - Both searches share the invariants (`Labelled`, `Frontier`) and the one-iteration step (`Visit`), with the depth `Limit` as a parameter. The depth-limited search also builds the returned list: `VisitRecording` wraps `Visit` and appends to it, and `Recorded` is the invariant that ties the list to the queued vertices.
- `recommend.dfy` (module `Recommend`): `recommend_all_friends`, with the friend graph specified as the mirrored set of proposed pairs.
- `evaluation.dfy` (module `Evaluation`): `precision` and `recall` as exact real ratios over edge sets.

Modelling choices:

- **Vertex identity.** A vertex is identified by its name: `Vertex.__eq__` and `__hash__` compare names only. So a vertex is a value of the type parameter `V`, and `u is not v` (graphs.py:180) is `u != v`.
- **Iteration order.** Python iterates over dictionaries and sets in an order the model does not fix. Each such loop picks its next element with `:|`, so every contract holds for every order.
- **`recommend_friends_for_user` as written.** Line 162 appends `u`, the vertex being scanned, rather than the newly queued vertex. So the list holds predecessors: each entry lies within `max_depth - 1` of the source, entries may repeat, and the source itself may appear. The docstring (graphs.py:130-131) instead calls the list "all vertices encountered". The model follows the code. A ghost list `discovered` holds the queued vertices alongside, and `encountered[i]` is the `pi` of `discovered[i]`. The `u is not v` test at line 180 removes the source again.

## Model

| member | source | states |
|---|---|---|
| DiGraphs.DiGraph.constructor | graphs.py:190-193 | a new graph has no vertex and no edge, and both counters are 0 |
| DiGraphs.DiGraph.EdgeSet | graphs.py:197-211 | the result is exactly the set of pairs (u, v) with v among u's destinations, as the docstring promises |
| DiGraphs.EdgeSetAsWritten | graphs.py:205-211 | edge_set as written: it raises (None) exactly when the graph has an edge, and otherwise returns the empty set |
| DiGraphs.EdgeSetAsWrittenRaises | graphs.py:209 | on any graph with an edge (u, v), the documented edge set holds (u, v) while the code as written raises |
| DiGraphs.DiGraph.AddVertex | graphs.py:213-216 | adds x with an empty set only when x is new; the vertex counter grows by one exactly then; the edges and the edge counter are unchanged; calling it on an existing vertex changes nothing |
| DiGraphs.DiGraph.AddEdge | graphs.py:218-224 | afterwards both ends are vertices and edge_exists(v1, v2) holds; v1's set gains v2; every other vertex keeps its set; new vertices get empty sets; the edge set grows by exactly (v1, v2); the edge counter grows by 1 even for a duplicate edge; the invariant is kept |
| DiGraphs.DiGraph.GetVertex | graphs.py:226-230 | the scan of the keys returns the stored vertex equal to x, or None when x is not a vertex |
| DiGraphs.DiGraph.VertexExists | graphs.py:232-233 | a name that is not a vertex starts no edge, and in a valid graph ends none |
| DiGraphs.DiGraph.CountVertices | graphs.py:235-236 | the counter equals the number of vertices |
| DiGraphs.DiGraph.CountEdges | graphs.py:238-239 | the counter is at least the number of distinct edges |
| DiGraphs.DiGraph.EdgeExists | graphs.py:241-250 | true exactly when (a, b) is in the edge set; false when a is not a vertex; reads the graph without changing it |
| DiGraphs.DiGraph.GetOutgoingEdges | graphs.py:252-254 | for a vertex x, the result is exactly x's destinations: each is a vertex with an edge from x, and every edge from x ends in it |
| Search.Initialise | graphs.py:104-113 | every vertex but s is WHITE, at Inf, without predecessor; s is GRAY at distance 0 without predecessor |
| Search.Start | graphs.py:104-113 | the reset state with Q = [s] satisfies the search invariants |
| Search.Expand | graphs.py:118-123 | each WHITE out-neighbour of u turns GRAY one layer beyond u, with u as pi; every other vertex is unchanged; the new GRAY vertices are listed once each and join the back of Q exactly when their layer is within the limit |
| Search.Round | graphs.py:116-124 | one pass of `while Q` keeps the invariants; u was GRAY and not yet expanded, and it joins the expanded (BLACK) vertices |
| Search.Visit | graphs.py:116-125 | one pass of `while Q`: the new queue is Q[1:] followed by the vertices the scan queued, in scan order; the invariants hold after it, and exactly u = Q[0] turns BLACK |
| Search.Bfs | graphs.py:93-125 | afterwards s is BLACK at 0 with no pi; every finite d is the shortest distance from s; d is Inf exactly for the vertices s cannot reach; reached vertices are BLACK and the others WHITE; every reached vertex but s has as pi an in-neighbour one layer closer; unreached vertices have no pi; the loop runs at most once per vertex |
| Search.BfsOutcome | graphs.py:116-125 | the emptied queue leaves the distances, colours and predecessors that bfs promises |
| Search.Reached | graphs.py:116-123 | once Q is empty, every vertex with a walk of k edges from s, all within the limit, is discovered at a layer of at most k |
| Search.Shortest | graphs.py:116-123 | once Q is empty, every discovered vertex's d is its shortest distance from s |
| Search.Unreached | graphs.py:116-123 | once Q is empty, a WHITE vertex has no walk from s that the search could have followed |
| Search.RecordRound | graphs.py:155-162 | after one scan, the list still pairs each queued vertex, once, with its pi: u is appended exactly once per vertex queued |
| Search.VisitRecording | graphs.py:153-164 | one pass of the depth-limited loop: the new queue is Q[1:] followed by the vertices just queued; the queued vertices grow by exactly those, and the list by one copy of u for each; the new marks are those of the scan with u turned BLACK; the invariants and the list record are kept |
| Search.RecommendFriendsForUser | graphs.py:127-165 | the list has one entry per vertex other than s within max_depth of s; entry i is the predecessor, within max_depth - 1 of s, of the i-th queued vertex; that vertex lies one layer further out, at most max_depth; the queued vertices, and so the list entries, come in the order of non-decreasing layer; every finite d is a shortest distance; BLACK exactly for s and the vertices within max_depth; the vertices left at Inf stay WHITE and lie more than max_depth + 1 away; the graph is not modified |
| Search.LimitedOutcome | graphs.py:153-164 | the emptied queue under max_depth leaves exactly the vertices within max_depth discovered, with shortest distances and the colours stated above |
| Search.OrderRound | graphs.py:153-162 | one pass of the depth-limited loop appends only vertices one layer beyond u, and every vertex queued earlier lies at most at u's layer, so the queued vertices stay in non-decreasing layer order |
| Search.OrderOutcome | graphs.py:153-165 | the queued vertices, and their predecessors in the returned list, come in non-decreasing order of distance from s |
| Search.RecordOutcome | graphs.py:160-165 | the returned list has as many entries as there are vertices other than s within max_depth, each one the predecessor of a queued vertex |
| Recommend.RecommendAllFriends | graphs.py:167-185 | the fresh friend graph is valid; there is one list per vertex of G, each with the vertices its search queued as recommend_friends_for_user promises (see TargetList); the friend graph's edge set is exactly the proposed pairs plus their reversals; its vertices are exactly the starts of those pairs |
| Recommend.Recommend | graphs.py:175-183 | one pass of the outer loop adds the proposals of the source u to the friend graph and keeps its invariant; the edge counter grows by 2 for every list entry befriended with u |
| Recommend.Targets | graphs.py:177 | the list for u and the vertices its search queued satisfy TargetList: the queued vertices are, once each, exactly the vertices other than u within max_depth; entry i is an in-neighbour of the i-th queued vertex, one shortest layer closer to u |
| Recommend.ListLength | graphs.py:153-165 | the list has exactly one entry per vertex other than the source within max_depth of it |
| Recommend.Complete | graphs.py:175-183 | every vertex v other than u within max_depth of u has on u's list an in-neighbour one shortest layer closer to u; that neighbour and u are recommended to each other unless it is u or G has an edge from it to u |
| Recommend.AddPairs | graphs.py:179-183 | after the inner loop, the friend graph holds the mirrored proposals of every source done so far, including u; the edge counter grows by 2 per befriended entry, repeated entries included |
| Recommend.Befriended | graphs.py:179-183 | the number of befriended entries is at most the list length, and it is 0 exactly when u has no proposal |
| Recommend.AddPair | graphs.py:179-183 | one pass of the inner loop extends the mirrored proposals by the pair for ts[i], and only when ts[i] is not u and G has no edge ts[i] -> u; the edge counter grows by 2 exactly then |
| Recommend.Befriend | graphs.py:182-183 | the friend graph gains exactly the edges u -> v and v -> u, and the vertices u and v; its edge counter grows by 2 |
| Recommend.MirrorShape | graphs.py:179-183 | the recommendations are symmetric and free of self-loops, and each pair comes from a list of one of its ends with no edge of G back to that end |
| Recommend.Recommended | graphs.py:179-183 | every pair (u, v) with v on u's list, v not u and no edge v -> u is recommended in both directions |
| Recommend.Sound | graphs.py:177-183 | every recommended pair joins two distinct vertices of G; one end lies within max_depth - 1 of the other, and G has no edge from it back to that other end |
| Recommend.ProposedSource | graphs.py:175-183 | adding the list of a new source adds exactly that source's proposals |
| Recommend.PairsStep | graphs.py:179-183 | one more list entry turns the friend graph for the first i entries into the one for the first i + 1 |
| Evaluation.Share | graphs.py:72-77 | the ratio lies in [0, 1]; it is 0 for an empty denominator set; it times the denominator size is the intersection size; it is 1 exactly when the denominator set is non-empty and contained in the other; it is 0 exactly when the sets share no edge |
| Evaluation.PrecisionOf | graphs.py:63-77 | precision lies in [0, 1]; it is 0.0 with no recommended edge; otherwise it is the share of the recommended edges in the test set, and it is 1 exactly when every recommended edge is a test edge |
| Evaluation.RecallOf | graphs.py:79-91 | recall lies in [0, 1]; it is 0.0 with no test edge; otherwise it is the share of the test edges that were recommended, and it is 1 exactly when every test edge was recommended |
| Evaluation.RecallIsSwappedPrecision | graphs.py:63-91 | recall is precision with the two edge sets swapped |
| Evaluation.PerfectMatch | graphs.py:63-91 | equal, non-empty edge sets give precision 1 and recall 1 |
| Evaluation.Disjoint | graphs.py:63-91 | edge sets with no common edge give precision 0 and recall 0 |
| Evaluation.Precision | graphs.py:63-77 | precision of two graphs is the precision of their edge sets |
| Evaluation.Recall | graphs.py:79-91 | recall of two graphs is the recall of their edge sets |

## Left out

- `load_data` (graphs.py:28-61) reads files. The model takes graphs as inputs instead.
- graphs_stub.py is not part of this model. Its searches are empty stubs, and its `precision` and `recall` repeat graphs.py.
- The `print` calls (graphs.py:176, 178, 181, 184, 246-249) are output only. They are not modelled.
- The `num_colored_black` counters (graphs.py:115, 125, 152, 164) are never read, so they are not modelled. `Bfs` has a ghost `rounds` counter in their place, which bounds the iterations.
- `Vertex.__eq__` and `__hash__` (graphs.py:19-26) are replaced by identity of names. The branch comparing a name with a non-`Vertex` object is not modelled.
- Floats become exact reals, and `sys.maxsize` becomes the `Inf` distance. The arithmetic `sys.maxsize + 1` never happens in the source, because only non-WHITE vertices are dequeued.
- Shared mutable `Vertex` fields:
  - The searches return the colour, distance and predecessor of every vertex as a map, instead of writing them into shared objects.
  - In Python, these fields keep the last search's values after `recommend_all_friends` returns. The model does not keep that leftover state.
- Search.RecommendFriendsForUser and Search.Bfs: both require that `s` is a vertex, an error path the model does not carry: for any other `s`, the Python code raises a KeyError at line 118 or 155 when it first scans `s`. They also require that every destination is a vertex; this is part of `DiGraph.Valid()`, so it holds for every graph `add_vertex` and `add_edge` build.
- Recommend.RecommendAllFriends: does not state the friend graph's final edge counter. Each source adds 2 per befriended entry (`Recommend` states this), but the total is a sum over the sources in an iteration order the model does not fix. Nor does it carry that each list comes in non-decreasing layer order; `Search.RecommendFriendsForUser` states that.
- DiGraphs.DiGraph.CountEdges: states only that the counter is at least the number of distinct edges. The counter also counts repeated `add_edge` calls, which the graph's state does not record; `AddEdge` states the exact increment.
- Evaluation.Precision and Evaluation.Recall use the documented `edge_set`. As written, `edge_set` raises on any graph with an edge, so both functions would raise too unless the graphs involved have no edges (see Findings).

## Findings

| source | as written | input that shows it | evidently intended | confidence | as-written member | corrected member |
|---|---|---|---|---|---|---|
| graphs.py:209 | the loop body calls `set.add((vertex, edge_destination))` on the builtin type, not on `set_of_edges`; this raises a TypeError on the first edge, and a graph without edges yields the empty set | any graph with one edge, such as one built by `add_edge(a, b)` | `set_of_edges.add(...)`: return every pair (u, v) with v among u's destinations, as the docstring at graphs.py:198-203 says | not executed | DiGraphs.EdgeSetAsWrittenRaises | DiGraphs.DiGraph.EdgeSet |
