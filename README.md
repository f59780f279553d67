# luxembourg-rs path search, in Dafny

A model of the core of luxembourg-rs, a map viewer that finds routes
between two nodes of a road graph. The model covers four parts:

- **The search engine** (`Search`, search.dfy). `run_pathfinding_algorithm` pops the frontier
  node of least priority. It stops at the goal. Otherwise it scans the node's
  edges: it marks each as passed when asked, records any cheaper cost, pushes
  the target with the algorithm's priority and links the target back.
  `reconstruct_path` then follows the links from the goal back to the start.
  Dijkstra ranks nodes by cost. AStar ranks them by the scaled distance to the
  goal alone. HybridAStar ranks them by cost plus weight times that distance.
- **The algorithm context** (`AlgorithmContexts`, algorithm_context.dfy). It
  holds the user's settings and the run on display. It also keeps a memo of the
  outputs of earlier runs, keyed by the run's arguments. `compute_path` does
  nothing when the arguments are those on display. Otherwise it searches only
  on a memo miss, then displays the memoized output.
- **The map view** (`MapView`, map.dfy). Clicks move the start/end selection.
  Once both ends are picked, a path is requested. Each frame sorts every edge
  into the path layer, the passed layer or the plain layer.
- **Node identity and hashable floats** (`Nodes`, node.dfy; `HashableFloat`,
  hashable_float.dfy). Nodes are equal, hashed and ordered by id.
  `integer_decode` splits an IEEE 754 binary64 bit pattern into mantissa,
  exponent and sign without losing information.

`Graph` (graph.dfy) defines edges, the adjacency map, and the walks and chains
the results are stated in. `Wrappers` (wrappers.dfy) defines Option and Result.

The main results are these:

- A successful run returns two things. Its total cost is the cost of a walk
  from the start to the goal, and the least such cost under Dijkstra or
  HybridAStar with weight 0. Its selected edges are the hops of a chain of
  distinct nodes from the start to the goal, one edge per hop. A walk of
  graph edges through those nodes costs at most the total cost, and exactly
  the total cost under cost order.
- Its passed edges are the outgoing edges of nodes reachable from the start.
- The search always terminates. A drained frontier means the goal is
  unreachable.
- The memo only ever holds outputs that such a run may return, and the output
  on display is the memoized output of the current arguments.
- Every edge is painted in exactly one layer. The layers together are a
  permutation of the edges, and path edges take precedence over passed ones.

## Model

| member | source | states |
|---|---|---|
| `Nodes.CompareIdsEqualIff` | src/models/node.rs:44-54 | `cmp` on nodes returns Equal exactly when the ids are equal, so Ord agrees with Eq |
| `Nodes.CompareIdsAntisymmetric` | src/models/node.rs:50-54 | swapping the nodes swaps Less and Greater |
| `Nodes.CompareIdsTransitive` | src/models/node.rs:50-54 | Less is transitive, so `cmp` is a total order on ids |
| `Nodes.SameNodeIsEquivalence` | src/models/node.rs:36-42 | node equality (by id) is reflexive, symmetric and transitive, as `Eq` requires |
| `Nodes.SameNodeIgnoresPosition` | src/models/node.rs:36-40 | two nodes with one id are equal and compare Equal whatever their positions |
| `Nodes.EqualityAgreement` | src/models/node.rs:30-54 | equal nodes hash the same input, and `cmp` is Equal exactly when `eq` holds |
| `HashableFloat.ExponentField` | src/utils/hashable_float.rs:16 | the biased exponent field is below 0x800 (11 bits) |
| `HashableFloat.IntegerDecode` | src/utils/hashable_float.rs:13-25 | sign is 1 exactly when bit 63 is clear, otherwise -1; the exponent is the field minus 1075 and lies in -1075..972; a subnormal's mantissa is its fraction shifted left by one, and a normal mantissa keeps the fraction and has bit 52 set |
| `HashableFloat.SignRoundTrip` | src/utils/hashable_float.rs:15 | the decoded sign gives back bit 63 |
| `HashableFloat.FieldRoundTrip` | src/utils/hashable_float.rs:16-23 | the decoded exponent gives back the exponent field |
| `HashableFloat.FractionRoundTrip` | src/utils/hashable_float.rs:17-21 | the decoded mantissa gives back the 52 fraction bits, for subnormal and normal patterns alike |
| `HashableFloat.PartsRebuildPattern` | src/utils/hashable_float.rs:14-21 | the sign bit, the exponent field and the fraction together make up the whole pattern |
| `HashableFloat.EncodeInvertsDecode` | src/utils/hashable_float.rs:13-25 | encoding the decoded triple gives back the bit pattern |
| `HashableFloat.DecodeInjective` | src/utils/hashable_float.rs:13-25 | two patterns decode to the same triple exactly when they are the same pattern |
| `HashableFloat.NewHF64` | src/utils/hashable_float.rs:7-9 | the key's exponent stays in the range the encoding accepts |
| `HashableFloat.NewHF64RoundTrip` | src/utils/hashable_float.rs:7-9 | the key of `HF64::new` loses nothing: it encodes back to the bit pattern |
| `HashableFloat.HF64EqualIffSameBits` | src/utils/hashable_float.rs:3-9 | two HF64 keys are equal exactly when the floats have the same bits |
| `HashableFloat.SignedZerosDiffer` | src/utils/hashable_float.rs:3-9 | +0.0 and -0.0 give different keys; -0.0 decodes to (0, -1075, -1) |
| `Graph.SeqKeys` | src/contexts/algorithm_context.rs:175-178 | a set of edges built from a list holds the key of every listed edge and nothing else |
| `Graph.ChainKeysCount` | src/contexts/algorithm_context.rs:216-225 | a chain of distinct nodes yields exactly one edge key per hop |
| `Search.Heuristic` | src/contexts/algorithm_context.rs:228-238 | a multiplier of 0 gives 0, and no multiplier gives the scaled distance itself |
| `Search.Priority` | src/contexts/algorithm_context.rs:188-194 | Dijkstra (and HybridAStar with weight 0) ranks by the new cost; AStar by the scaled distance to the goal; HybridAStar by the cost plus weight times that distance |
| `Search.HybridWithZeroWeightIsDijkstra` | src/contexts/algorithm_context.rs:188-194 | HybridAStar with weight 0 gives every node Dijkstra's priority |
| `Search.StepBack` | src/contexts/algorithm_context.rs:219-223 | following one link back from the current node keeps a chain of distinct nodes to the goal, with one collected edge per hop |
| `Search.ReconstructPath` | src/contexts/algorithm_context.rs:209-226 | fails (the `unwrap` panic) exactly when the goal is not the start and has no link; returns no edges when the goal is the start; otherwise returns the edge keys of a chain of distinct linked nodes from the start to the goal |
| `Search.WalkMeetsFrontier` | src/contexts/algorithm_context.rs:167-200 | every walk from the start ends at a scanned node recorded no dearer than the walk, or meets a frontier node recorded no dearer than the walk |
| `Search.DrainedMeansUnreachable` | src/contexts/algorithm_context.rs:167-200 | once every recorded node has been scanned, an unscanned node cannot be reached |
| `Search.MinIsLowerBound` | src/contexts/algorithm_context.rs:167-172 | when priorities are costs, the node popped first has a recorded cost no walk to it beats |
| `Search.GoalPopped` | src/contexts/algorithm_context.rs:168-173 | a popped goal has a recorded cost and a link; under cost order no walk is cheaper; a goal equal to the start has cost 0 and nothing passed |
| `Search.Drained` | src/contexts/algorithm_context.rs:167-200 | a frontier drained without popping the goal leaves the goal unlinked and unreachable |
| `Search.StuckAt` | src/contexts/algorithm_context.rs:175 | a popped non-goal node without an adjacency entry was reached from the start, which is not the goal |
| `Search.UpdateKeepsVia` | src/contexts/algorithm_context.rs:180-197 | each link comes with the graph edge it was made through: the new link costs exactly its source's cost plus the edge's length, and a later drop of a source's cost keeps every link at most its target's cost |
| `Search.LinksGiveChain` | src/contexts/algorithm_context.rs:197 | distinct nodes following the links from start to goal form a chain of arcs of the graph |
| `Search.LinksGiveWalk` | src/contexts/algorithm_context.rs:219-223 | the edges of the links followed back form a walk through the same nodes, costing at most the difference of the recorded costs at its two ends |
| `Search.BacktrackGivesPath` | src/contexts/algorithm_context.rs:203 | the reconstructed keys are a chain from start to goal, one key per hop, along which a walk costs at most the goal's recorded cost |
| `Search.ExpandedPassedSound` | src/contexts/algorithm_context.rs:175-178 | the passed edges are those of the scanned nodes, which were all reached from the start and exclude the goal |
| `Search.FoundIsOutput` | src/contexts/algorithm_context.rs:202-206 | after the goal is popped, its cost, the walked-back edges and the passed edges form an output a run promises, the path costing at most the total cost |
| `Search.RelaxEdge` | src/contexts/algorithm_context.rs:175-199 | one edge of the popped node: marking it passed, lowering its target's cost, pushing and linking the target keep the engine's invariant |
| `Search.ScanNeighbors` | src/contexts/algorithm_context.rs:175-199 | scanning every edge of the popped node restores the invariant and shrinks the termination measure |
| `Search.Explore` | src/contexts/algorithm_context.rs:158-200 | the loop ends by popping the goal (the least node on the frontier), by draining the frontier, or at a reached non-goal node without an adjacency entry |
| `Search.RunPathfinding` | src/contexts/algorithm_context.rs:146-207 | success returns an output a run promises: the total cost is a walk's cost (the least under cost order), and the selected edges are a chain of distinct nodes along which a walk of graph edges costs at most the total cost; start equal to goal returns no edges and cost 0; the failures are an unreachable goal and a reached node without an adjacency entry |
| `AlgorithmContexts.MemoInsert` | src/contexts/algorithm_context.rs:97-115 | inserting an output a run may return keeps every memoized output sound |
| `AlgorithmContexts.AlgorithmContext.constructor` | src/contexts/algorithm_context.rs:57-69 | HybridAStar with weight 1, Manhattan distance, no marking, zero cost, nothing selected or memoized |
| `AlgorithmContexts.AlgorithmContext.IsEdgeSelected` | src/contexts/algorithm_context.rs:71-73 | true exactly when the edge, by its endpoint ids, is on the path on display |
| `AlgorithmContexts.AlgorithmContext.IsEdgePassed` | src/contexts/algorithm_context.rs:75-77 | true exactly when the edge, by its endpoint ids, was passed by the run on display |
| `AlgorithmContexts.AlgorithmContext.IsNewArgs` | src/contexts/algorithm_context.rs:79-91 | true exactly when the arguments under the current settings differ from those on display, or nothing is on display |
| `AlgorithmContexts.AlgorithmContext.IsUsingAStar` | src/contexts/algorithm_context.rs:140-143 | true exactly when the algorithm is not Dijkstra; Dijkstra orders by cost |
| `AlgorithmContexts.AlgorithmContext.Memoize` | src/contexts/algorithm_context.rs:97-115 | a memo hit changes nothing; a miss runs the search and adds its output at these arguments only; the memo stays sound |
| `AlgorithmContexts.AlgorithmContext.ComputePath` | src/contexts/algorithm_context.rs:93-138 | unchanged arguments change nothing; memoized arguments add nothing to the memo; otherwise the memoized output is displayed and its arguments recorded; the context stays consistent |
| `AlgorithmContexts.ShownPathIsChain` | src/contexts/algorithm_context.rs:117-128 | the path on display is a chain of distinct nodes from the current start to the current end, one edge per hop, along which a walk of graph edges costs at most the cost on display, and exactly that under cost order |
| `AlgorithmContexts.ShownCostIsWalkCost` | src/contexts/algorithm_context.rs:117-128 | the cost on display is that of a walk from start to end, and the least one under cost order |
| `AlgorithmContexts.ShownPassedIsSound` | src/contexts/algorithm_context.rs:117-128 | the passed edges on display are the outgoing edges of nodes the current run reached, excluding the end; none when it did not mark |
| `AlgorithmContexts.PassedEdgeWasScanned` | src/contexts/algorithm_context.rs:75-77 | an edge reported as passed matches an edge of a node, other than the end, reached from the current start, and only a marking run reports any |
| `AlgorithmContexts.DisplayIgnoresLength` | src/contexts/algorithm_context.rs:71-77 | whether an edge is selected or passed depends on its endpoint ids only, so a rebuilt path edge of length 0 matches the graph's edge |
| `MapView.ClickPicksUnpicked` | src/map.rs:146-197 | a click on a node that is not picked makes it the start or the end |
| `MapView.ClickDropsPicked` | src/map.rs:159-185 | with a start picked, a click on a picked node unpicks it, unless it is both start and end |
| `MapView.ClickPicksOnlyClicked` | src/map.rs:146-197 | a click never picks a node other than the clicked one |
| `MapView.ClickCompletesPair` | src/map.rs:146-197 | both ends are picked after a click exactly when it set the end beside a lone start, or the start beside a lone end |
| `MapView.StartCanEqualEnd` | src/map.rs:151-185 | four clicks (a, b, a, b) make b both the start and the end |
| `MapView.InLayerMembers` | src/map.rs:77-90 | an edge is in a layer exactly when it is an edge of the map that belongs to that layer |
| `MapView.LayersPartition` | src/map.rs:77-96 | the three layers together hold each edge exactly as often as the edge list does |
| `MapView.LayerCountsSum` | src/map.rs:92-96 | the layer sizes add up to the number of edges, so the count check never fails |
| `MapView.LayerPrecedence` | src/map.rs:78-87 | path layer exactly when drawing and on the path; passed layer exactly when drawing, marking, passed and not on the path |
| `MapView.NotDrawingAllPlain` | src/map.rs:77-90 | with no path drawn, every edge is plain and the other layers are empty |
| `MapView.UIState.constructor` | src/map.rs:481-498 | nothing picked, no layers stored, no path drawn |
| `MapView.UIState.IsStartAndEndSet` | src/map.rs:476-478 | true exactly when both the start and the end are picked; both are then selected |
| `MapView.Map.constructor` | src/map.rs:26-33 | no data, nothing picked, no layers stored, no path drawn, and a fresh, consistent algorithm context with its defaults (HybridAStar, weight 1, Manhattan, no marking, nothing displayed or memoized) |
| `MapView.Map.IsSelected` | src/map.rs:35-47 | true exactly when the start or the end pick has the id |
| `MapView.Map.SelectNode` | src/map.rs:146-197 | the picks move as a click says and the path is no longer drawn |
| `MapView.Map.RenderEdges` | src/map.rs:62-99 | without data nothing changes; otherwise the stored path and passed layers and the returned plain edges are the three layers of the edges |
| `MapView.Map.RequestPath` | src/map.rs:363-389 | with both ends picked and new arguments, the path is computed and drawn; otherwise nothing changes; a failed search changes nothing |
| `MapView.Map.ReselectEnd` | src/map.rs:363-388 | clicking the end pick of a displayed path twice picks the same pair again, but the next request draws nothing and changes nothing, because the arguments are not new |
| `MapView.PathLayerFollowsChain` | src/map.rs:77-85 | after a path is computed, every edge painted in the path layer is a hop of a chain from the start pick to the end pick |

## Left out

- Floating point. Lengths, costs, priorities and the A* weight are natural
  numbers. The scaled distance (`MULTIPLICITY_BASE`, 13000, times the Euclidean
  or Manhattan distance, src/contexts/algorithm_context.rs:17 and :236-256) is
  the parameter `dist`. The model uses only that it returns a natural.
- Search.Heuristic: states the multiplier's effect for 0 and for none only. Positions are not modelled, so the distance itself is not computed.
- Priority-queue ties. `pop` returns some node of least priority, and the model
  allows any of them. Pushing a node already queued updates its priority,
  as `PriorityQueue::push` does.
- Panics. Two `unwrap`s can fail. One is a popped node without an adjacency
  entry (:175). The other is a goal never reached (:220). Both are modelled as
  `SearchError` results.
- AlgorithmContexts.AlgorithmContext.ComputePath: on a search error it returns the error and leaves
  the context unchanged. The source would have crashed instead.
- Search.RunPathfinding: `total_cost` stays 0 when the frontier drains (:171).
  The model only reaches that case together with the reconstruction failure,
  so no output carries that 0.
- Search.RunPathfinding: least cost is proved only when priorities are costs
  (Dijkstra, or HybridAStar with weight 0). AStar ranks by the heuristic alone,
  and HybridAStar with positive weight need not find the cheapest path.
- Search.RunPathfinding: the walk along the returned path costs exactly the
  total cost only under cost order; otherwise it is proved to cost at most
  that. Under AStar a node's cost can drop after a node linked to it was
  recorded, and the goal can be popped before the drop reaches it.
- Memo keys. `RunArgs` hold node ids rather than nodes, since nodes are equal
  by id. The adjacency is assumed not to change while a context lives, as the
  source's comment at :21-22 says.
- The user interface: painting, toasts, sliders, pan and zoom, frame history,
  the data loader and channel polling. `render_edges` returns the plain edges
  instead of painting them, and `select_node` drops its toasts.
- The data context. `has_data` and `neighbors`, which src/map.rs uses, are
  not defined in src/contexts/data_context.rs. They are the fields
  `Map.hasData` and `Map.neighbors`.
- MapView.Map.RequestPath: the source calls `is_new_args` twice to decide
  whether to show a toast. The toast is not modelled.
- The rendering of nodes (`render_nodes`, src/map.rs:106-144) is not part of
  this model. It uses `is_selected`, which is.
