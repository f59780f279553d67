/**
 * The path-search engine (src/contexts/algorithm_context.rs:146-256): a
 * uniform-cost search whose frontier is ordered by a priority that depends
 * on the algorithm, followed by a walk back along the `came_from` links.
 *
 * Lengths, costs, priorities and the heuristic weight are naturals. The
 * scaled distance between two positions (13000 times the Euclidean or the
 * Manhattan distance) is a parameter `dist`, of which the model only uses
 * that it is a natural.
 */
module Search {
  import opened Wrappers
  import opened Nodes
  import opened Graph

  datatype AlgorithmType = AStar | HybridAStar | Dijkstra

  /** The scaled distance between two nodes; the flag selects Manhattan (true) or Euclidean (false). */
  type Distance = (Node, Node, bool) -> nat

  /** (selected_edges, passed_edges, total_cost). */
  datatype RunOutput = RunOutput(selectedEdges: set<EdgeKey>, passedEdges: set<EdgeKey>, totalCost: nat)

  /** The two `unwrap`s that can fail: a popped node without adjacency entry, and a goal never reached. */
  datatype SearchError = MissingNeighbors(node: NodeId) | Unreachable

  /** `heuristic`: the multiplier (1 when absent) times the scaled distance. */
  function Heuristic(a: Node, b: Node, multiplier: Option<nat>, useManhattan: bool, dist: Distance): (h: nat)
    ensures multiplier == Some(0) ==> h == 0
    ensures multiplier.None? ==> h == dist(a, b, useManhattan)
  {
    (match multiplier case Some(m) => m case None => 1) * dist(a, b, useManhattan)
  }

  /** The algorithms whose priority is exactly the accumulated cost. */
  predicate UsesCostOrder(alg: AlgorithmType, weight: nat) {
    alg == Dijkstra || (alg == HybridAStar && weight == 0)
  }

  /**
   * The frontier priority of a node reached at `newCost`. AStar ranks by the
   * heuristic alone and ignores the accumulated cost (greedy best-first);
   * that is the engine's behaviour and is kept.
   */
  function Priority(alg: AlgorithmType, weight: nat, newCost: nat, next: Node, end: Node,
                    useManhattan: bool, dist: Distance): (p: nat)
    ensures UsesCostOrder(alg, weight) ==> p == newCost
    ensures alg == AStar ==> p == dist(next, end, useManhattan)
    ensures alg == HybridAStar ==> p == newCost + weight * dist(next, end, useManhattan)
  {
    match alg
    case AStar => Heuristic(next, end, None, useManhattan, dist)
    case HybridAStar => newCost + Heuristic(next, end, Some(weight), useManhattan, dist)
    case Dijkstra => newCost
  }

  /** HybridAStar with weight 0 ranks every node exactly as Dijkstra does. */
  lemma HybridWithZeroWeightIsDijkstra(newCost: nat, next: Node, end: Node, useManhattan: bool, dist: Distance)
    ensures Priority(HybridAStar, 0, newCost, next, end, useManhattan, dist)
         == Priority(Dijkstra, 0, newCost, next, end, useManhattan, dist)
  {
  }

  // ---------------------------------------------------------------------
  // The frontier: a priority per node; pushing a present node updates it.

  type Frontier = map<NodeId, nat>

  /** `u` has the lowest priority in the frontier: what `pop` returns (ties unspecified). */
  predicate IsMinIn(frontier: Frontier, u: NodeId) {
    u in frontier && forall v :: v in frontier ==> frontier[u] <= frontier[v]
  }

  lemma {:induction false} MinExists(frontier: Frontier)
    requires frontier != map[]
    ensures exists u :: IsMinIn(frontier, u)
    decreases |frontier|
  {
    var x :| x in frontier;
    var rest := frontier - {x};
    if rest == map[] {
      forall v | v in frontier ensures frontier[x] <= frontier[v] {
        assert v !in rest;
      }
      assert IsMinIn(frontier, x);
    } else {
      assert |rest| < |frontier| by {
        assert rest.Keys == frontier.Keys - {x};
      }
      MinExists(rest);
      var y :| IsMinIn(rest, y);
      var m := if frontier[x] <= frontier[y] then x else y;
      forall v | v in frontier ensures frontier[m] <= frontier[v] {
        if v != x { assert v in rest && rest[v] == frontier[v]; }
      }
      assert IsMinIn(frontier, m);
    }
  }

  // ---------------------------------------------------------------------
  // Termination: the sum of the recorded costs, and the nodes still unseen.

  ghost function PickOne(ks: set<NodeId>): NodeId
    requires ks != {}
  {
    var k :| k in ks; k
  }

  ghost function CostSum(m: map<NodeId, nat>, ks: set<NodeId>): nat
    requires ks <= m.Keys
    decreases ks
  {
    if ks == {} then 0 else var k := PickOne(ks); m[k] + CostSum(m, ks - {k})
  }

  lemma {:induction false} CostSumAgree(m1: map<NodeId, nat>, m2: map<NodeId, nat>, ks: set<NodeId>)
    requires ks <= m1.Keys && ks <= m2.Keys
    requires forall k :: k in ks ==> m1[k] == m2[k]
    ensures CostSum(m1, ks) == CostSum(m2, ks)
    decreases ks
  {
    if ks != {} {
      CostSumAgree(m1, m2, ks - {PickOne(ks)});
    }
  }

  /** Lowering one recorded cost lowers the sum by the same amount. */
  lemma {:induction false} CostSumUpdate(m: map<NodeId, nat>, ks: set<NodeId>, k0: NodeId, v: nat)
    requires ks <= m.Keys && k0 in ks
    ensures CostSum(m[k0 := v], ks) + m[k0] == CostSum(m, ks) + v
    decreases ks
  {
    var k := PickOne(ks);
    var m' := m[k0 := v];
    if k == k0 {
      CostSumAgree(m', m, ks - {k});
    } else {
      CostSumUpdate(m, ks - {k}, k0, v);
    }
  }

  /** The search made progress on its recorded costs: a new node, or a lower total. */
  ghost predicate Progress(d: map<NodeId, nat>, d0: map<NodeId, nat>) {
    d0.Keys < d.Keys || (d0.Keys == d.Keys && CostSum(d, d.Keys) < CostSum(d0, d0.Keys))
  }

  lemma FewerUnseen(universe: set<NodeId>, a: set<NodeId>, b: set<NodeId>)
    requires a < b <= universe
    ensures |universe - b| < |universe - a|
  {
    var d := (universe - a) - (universe - b);
    var w :| w in b && w !in a;
    assert w in d;
    assert universe - a == (universe - b) + d;
    assert (universe - b) * d == {};
  }

  // ---------------------------------------------------------------------
  // The came_from links.

  type Links = map<NodeId, Option<NodeId>>

  /** `u` precedes `v` in the order (cost, time of the last cost update). */
  ghost predicate RanksBelow(cost: map<NodeId, nat>, stamp: map<NodeId, nat>, u: NodeId, v: NodeId) {
    && u in cost && v in cost && u in stamp && v in stamp
    && (cost[u] < cost[v] || (cost[u] == cost[v] && stamp[u] < stamp[v]))
  }

  /**
   * Every linked node other than `start` has a predecessor that is linked
   * too and ranks strictly below it, so following the links from any linked
   * node reaches `start`.
   */
  ghost predicate RootedAt(cameFrom: Links, start: NodeId, cost: map<NodeId, nat>, stamp: map<NodeId, nat>) {
    forall v {:trigger cameFrom[v]} :: v in cameFrom && v != start ==>
      cameFrom[v].Some? && cameFrom[v].value in cameFrom && RanksBelow(cost, stamp, cameFrom[v].value, v)
  }

  /** `hops` follows the links: every node after the first was reached from the one before it. */
  ghost predicate FollowsLinks(cameFrom: Links, hops: seq<NodeId>) {
    forall i :: 0 < i < |hops| ==> hops[i] in cameFrom && cameFrom[hops[i]] == Some(hops[i - 1])
  }

  /** Every node after the head of `hops` ranks strictly above the head. */
  ghost predicate HeadRanksLowest(cost: map<NodeId, nat>, stamp: map<NodeId, nat>, hops: seq<NodeId>)
    requires |hops| > 0
  {
    forall i :: 0 < i < |hops| ==> RanksBelow(cost, stamp, hops[0], hops[i])
  }

  ghost predicate Distinct(hops: seq<NodeId>) {
    forall i, j :: 0 <= i < j < |hops| ==> hops[i] != hops[j]
  }

  /** One step of the walk back keeps the partial chain well formed. */
  lemma PrependLink(cameFrom: Links, cost: map<NodeId, nat>, stamp: map<NodeId, nat>, hops: seq<NodeId>, next: NodeId)
    requires |hops| > 0 && FollowsLinks(cameFrom, hops) && HeadRanksLowest(cost, stamp, hops) && Distinct(hops)
    requires hops[0] in cameFrom && cameFrom[hops[0]] == Some(next) && RanksBelow(cost, stamp, next, hops[0])
    ensures FollowsLinks(cameFrom, [next] + hops) && HeadRanksLowest(cost, stamp, [next] + hops) && Distinct([next] + hops)
  {
    var h := [next] + hops;
    forall i | 0 < i < |h| ensures RanksBelow(cost, stamp, next, h[i]) {
      if i > 1 { assert h[i] == hops[i - 1]; }
    }
  }

  /**
   * `hops` leads from `head` to `end` along the links, its nodes are
   * distinct and rank above its head, and `keys` holds one edge key per hop.
   */
  ghost predicate Backtrack(cameFrom: Links, cost: map<NodeId, nat>, stamp: map<NodeId, nat>,
                            hops: seq<NodeId>, head: NodeId, end: NodeId, keys: set<EdgeKey>) {
    && |hops| > 0 && hops[0] == head && hops[|hops| - 1] == end
    && FollowsLinks(cameFrom, hops) && HeadRanksLowest(cost, stamp, hops) && Distinct(hops)
    && keys == ChainKeys(hops) && |keys| == |hops| - 1
  }

  /** Following the link of `current` back to `next` extends the backtrack by one hop. */
  lemma StepBack(cameFrom: Links, cost: map<NodeId, nat>, stamp: map<NodeId, nat>,
                 current: NodeId, end: NodeId, selected: set<EdgeKey>, next: NodeId)
    requires exists hops :: Backtrack(cameFrom, cost, stamp, hops, current, end, selected)
    requires current in cameFrom && cameFrom[current] == Some(next) && RanksBelow(cost, stamp, next, current)
    ensures exists hops :: Backtrack(cameFrom, cost, stamp, hops, next, end, selected + {EdgeKey(next, current)})
  {
    var hops :| Backtrack(cameFrom, cost, stamp, hops, current, end, selected);
    PrependLink(cameFrom, cost, stamp, hops, next);
    ChainKeysPrepend(next, hops);
    ChainKeysCount([next] + hops);
    assert Backtrack(cameFrom, cost, stamp, [next] + hops, next, end, selected + {EdgeKey(next, current)});
  }

  /**
   * `reconstruct_path`: walk the links back from `end` to `start`, collecting
   * the edge key of each hop; a node on the way without a link (in
   * particular an `end` that was never reached) is an error.
   */
  method ReconstructPath(cameFrom: Links, start: NodeId, end: NodeId,
                         ghost cost: map<NodeId, nat>, ghost stamp: map<NodeId, nat>)
    returns (r: Result<set<EdgeKey>, SearchError>)
    requires RootedAt(cameFrom, start, cost, stamp)
    ensures r.Err? <==> end != start && end !in cameFrom
    ensures r.Err? ==> r.error == Unreachable
    ensures end == start ==> r == Ok({})
    ensures r.Ok? ==> exists hops :: Backtrack(cameFrom, cost, stamp, hops, start, end, r.value)
  {
    var selected: set<EdgeKey> := {};
    var current := end;
    assert Backtrack(cameFrom, cost, stamp, [end], end, end, {}) by {
      assert ChainKeys([end]) == {};
    }
    while current != start
      invariant exists hops :: Backtrack(cameFrom, cost, stamp, hops, current, end, selected)
      invariant current != end ==> current in cameFrom && end in cameFrom
      invariant current == end ==> selected == {}
      decreases if current in cost then cost[current] else 0, if current in stamp then stamp[current] else 0
    {
      var link := if current in cameFrom then cameFrom[current] else None;
      if link.None? {
        return Err(Unreachable);
      }
      var next := link.value;
      StepBack(cameFrom, cost, stamp, current, end, selected, next);
      selected := selected + {EdgeKey(next, current)};
      current := next;
    }
    r := Ok(selected);
  }

  // ---------------------------------------------------------------------
  // Why a drained frontier means "unreachable", and why cost order is optimal.

  /** Relaxing edge `e` out of `x` could not lower the cost recorded for its target. */
  ghost predicate RelaxedEdge(cost: map<NodeId, nat>, x: NodeId, e: Edge) {
    x in cost && e.to.id in cost && cost[e.to.id] <= cost[x] + e.length
  }

  /** Every outgoing edge of `x` is relaxed. */
  ghost predicate Relaxed(adj: Adjacency, cost: map<NodeId, nat>, x: NodeId) {
    x in adj && forall e :: e in adj[x] ==> RelaxedEdge(cost, x, e)
  }

  /**
   * Any walk from `start` to `t` either ends at an expanded node off the
   * frontier whose recorded cost is at most the walk's, or passes a frontier
   * node whose recorded cost is at most the walk's.
   */
  lemma {:induction false} WalkMeetsFrontier(adj: Adjacency, start: NodeId, cost: map<NodeId, nat>,
                                             frontier: Frontier, expanded: set<NodeId>, p: seq<Edge>, t: NodeId)
    requires start in cost && cost[start] == 0
    requires frontier.Keys <= cost.Keys && cost.Keys <= expanded + frontier.Keys
    requires forall x :: x in expanded && x !in frontier ==> Relaxed(adj, cost, x)
    requires IsWalk(adj, start, p, t)
    ensures (t in expanded && t !in frontier && t in cost && cost[t] <= WalkCost(p))
         || (exists y :: y in frontier && cost[y] <= WalkCost(p))
    decreases |p|
  {
    if |p| == 0 {
      if start in frontier {
        assert cost[start] <= WalkCost(p);
      }
    } else {
      var q := p[..|p| - 1];
      var s := Source(start, p, |p| - 1);
      WalkSplitLast(adj, start, p, t);
      WalkMeetsFrontier(adj, start, cost, frontier, expanded, q, s);
      if s in expanded && s !in frontier && s in cost && cost[s] <= WalkCost(q) {
        assert RelaxedEdge(cost, s, p[|p| - 1]);
        if t in frontier {
          assert cost[t] <= WalkCost(p);
        }
      }
    }
  }

  /** With nothing left on the frontier, only expanded nodes are reachable. */
  lemma DrainedMeansUnreachable(adj: Adjacency, start: NodeId, cost: map<NodeId, nat>,
                                expanded: set<NodeId>, t: NodeId)
    requires start in cost && cost[start] == 0 && cost.Keys <= expanded
    requires forall x :: x in expanded ==> Relaxed(adj, cost, x)
    requires t !in expanded
    ensures !Reachable(adj, start, t)
  {
    if Reachable(adj, start, t) {
      var p :| IsWalk(adj, start, p, t);
      WalkMeetsFrontier(adj, start, cost, map[], expanded, p, t);
    }
  }

  /** When priorities are the recorded costs, the node popped first has its least cost. */
  lemma MinIsLowerBound(adj: Adjacency, start: NodeId, cost: map<NodeId, nat>,
                        frontier: Frontier, expanded: set<NodeId>, u: NodeId)
    requires start in cost && cost[start] == 0
    requires frontier.Keys <= cost.Keys && cost.Keys <= expanded + frontier.Keys
    requires forall x :: x in expanded && x !in frontier ==> Relaxed(adj, cost, x)
    requires forall v :: v in frontier ==> frontier[v] == cost[v]
    requires IsMinIn(frontier, u)
    ensures IsLowerBound(adj, start, u, cost[u])
  {
    forall p | IsWalk(adj, start, p, u) ensures cost[u] <= WalkCost(p) {
      WalkMeetsFrontier(adj, start, cost, frontier, expanded, p, u);
    }
  }

  // ---------------------------------------------------------------------
  // The engine's state and its invariant.

  /** The inputs the invariant is stated against. */
  datatype Config = Config(adj: Adjacency, start: NodeId, end: NodeId, mark: bool, alg: AlgorithmType, weight: nat)

  /** The nodes a search can ever record a cost for: the start and the edge targets. */
  ghost function Universe(adj: Adjacency, start: NodeId): set<NodeId> {
    Targets(adj) + {start}
  }

  /**
   * The links lead back to `start` through nodes with recorded costs;
   * `stamp` is the time of each node's last cost update and `clock` the
   * next time.
   */
  ghost predicate LinksOk(c: Config, cameFrom: Links, cost: map<NodeId, nat>, stamp: map<NodeId, nat>, clock: nat) {
    && c.start in cost && cost[c.start] == 0 && c.start in cameFrom && cameFrom[c.start] == None
    && (forall v :: v in cameFrom <==> v in cost) && (forall v :: v in stamp <==> v in cost)
    && (forall v {:trigger stamp[v]} :: v in stamp ==> stamp[v] < clock)
    && RootedAt(cameFrom, c.start, cost, stamp)
  }

  /** `e` is an edge listed for `u` that leads to `v`, and `u`'s recorded cost plus its length is at most `v`'s. */
  ghost predicate LinkEdge(adj: Adjacency, cost: map<NodeId, nat>, u: NodeId, e: Edge, v: NodeId) {
    u in adj && e in adj[u] && e.to.id == v && u in cost && v in cost && cost[u] + e.length <= cost[v]
  }

  /**
   * Every link comes with the edge `via` it was made through; the link's
   * cost is exact when it is made and the source's cost may only drop later.
   */
  ghost predicate ViaOk(c: Config, cameFrom: Links, cost: map<NodeId, nat>, via: map<NodeId, Edge>) {
    forall v {:trigger cameFrom[v]} :: v in cameFrom && cameFrom[v].Some? ==> v in via && LinkEdge(c.adj, cost, cameFrom[v].value, via[v], v)
  }

  /** Every recorded cost is the cost of an actual walk from `start`. */
  ghost predicate WalksOk(c: Config, cost: map<NodeId, nat>, walks: map<NodeId, seq<Edge>>) {
    && (forall v :: v in walks <==> v in cost)
    && forall v {:trigger walks[v]} :: v in cost ==> IsWalk(c.adj, c.start, walks[v], v) && WalkCost(walks[v]) == cost[v]
  }

  /** Under Dijkstra (or weight-0 HybridAStar) a frontier priority is the node's recorded cost. */
  ghost predicate CostOrdered(c: Config, frontier: Frontier, cost: map<NodeId, nat>) {
    UsesCostOrder(c.alg, c.weight) ==> forall v :: v in frontier ==> v in cost && frontier[v] == cost[v]
  }

  /**
   * Between rounds: every node with a cost is on the frontier or expanded
   * (its edges scanned); an expanded node off the frontier is relaxed; the
   * goal is never expanded; the start is expanded first.
   */
  ghost predicate Closed(c: Config, frontier: Frontier, cost: map<NodeId, nat>, expanded: set<NodeId>) {
    && frontier.Keys <= cost.Keys && cost.Keys <= expanded + frontier.Keys
    && expanded <= cost.Keys && expanded <= c.adj.Keys
    && (forall x :: x in expanded && x !in frontier ==> Relaxed(c.adj, cost, x))
    && c.end !in expanded
    && (expanded == {} ==> frontier == map[c.start := 0])
    && (expanded != {} ==> c.start in expanded)
  }

  /** Between rounds, the passed edges are those of the expanded nodes (none when not marking). */
  ghost predicate PassedOk(c: Config, passed: set<EdgeKey>, expanded: set<NodeId>) {
    passed == if c.mark then OutgoingKeys(c.adj, expanded) else {}
  }

  /** Where the scan of `current` stands with respect to the goal and the start. */
  ghost predicate ScanFrame(c: Config, expanded: set<NodeId>, current: NodeId, i: nat) {
    && current in c.adj && i <= |c.adj[current]| && current != c.end
    && expanded <= c.adj.Keys && c.end !in expanded && c.start in expanded + {current}
  }

  /** The nodes with costs during the scan; `current`'s own cost stays as it was when popped. */
  ghost predicate ScanCover(frontier: Frontier, cost: map<NodeId, nat>, expanded: set<NodeId>, current: NodeId,
                            cost0: map<NodeId, nat>) {
    && current in cost0 && current in cost && cost[current] == cost0[current] && current !in frontier
    && frontier.Keys <= cost.Keys && cost.Keys <= expanded + {current} + frontier.Keys
    && expanded <= cost.Keys
  }

  /** The expanded nodes off the frontier are relaxed, and so are the first `i` edges of `current`. */
  ghost predicate ScanRelaxed(adj: Adjacency, cost: map<NodeId, nat>, frontier: Frontier, expanded: set<NodeId>,
                              current: NodeId, i: nat)
    requires current in adj && i <= |adj[current]|
  {
    && (forall x :: x in expanded && x != current && x !in frontier ==> Relaxed(adj, cost, x))
    && (forall k :: 0 <= k < i ==> RelaxedEdge(cost, current, adj[current][k]))
  }

  /** The passed edges: those of the expanded nodes and the first `i` of `current`'s. */
  ghost predicate ScanPassed(c: Config, passed: set<EdgeKey>, expanded: set<NodeId>, current: NodeId, i: nat)
    requires current in c.adj && i <= |c.adj[current]|
  {
    passed == (if c.mark then OutgoingKeys(c.adj, expanded) + SeqKeys(c.adj[current][..i]) else {})
  }

  /** Either nothing has changed since the pop, or the costs progressed. */
  ghost predicate ScanProgress(frontier: Frontier, cost: map<NodeId, nat>, cost0: map<NodeId, nat>, frontier1: Frontier) {
    (cost == cost0 && frontier == frontier1) || Progress(cost, cost0)
  }

  /**
   * The proof-only bookkeeping of a run: when each recorded cost was last
   * updated (`stamp`, against the running `clock`), a walk of each
   * recorded cost and the edge each link was made through (`via`).
   */
  datatype Trail = Trail(stamp: map<NodeId, nat>, clock: nat, walks: map<NodeId, seq<Edge>>, via: map<NodeId, Edge>)

  /** The bookkeeping after `e`'s target gets a new cost through `current`. */
  ghost function Record(t: Trail, current: NodeId, e: Edge): Trail
    requires current in t.walks
  {
    Trail(t.stamp[e.to.id := t.clock], t.clock + 1, t.walks[e.to.id := t.walks[current] + [e]], t.via[e.to.id := e])
  }

  /** The links and costs are explained by the bookkeeping `t`. */
  ghost predicate Tracked(c: Config, cameFrom: Links, cost: map<NodeId, nat>, t: Trail) {
    LinksOk(c, cameFrom, cost, t.stamp, t.clock) && ViaOk(c, cameFrom, cost, t.via) && WalksOk(c, cost, t.walks)
  }

  /** The outer loop's invariant, with its bookkeeping `t`: the state between two rounds, `expanded` being the nodes scanned so far. */
  ghost predicate BetweenWith(c: Config, frontier: Frontier, cameFrom: Links, cost: map<NodeId, nat>,
                              passed: set<EdgeKey>, expanded: set<NodeId>, t: Trail) {
    && Tracked(c, cameFrom, cost, t)
    && CostOrdered(c, frontier, cost) && cost.Keys <= Universe(c.adj, c.start)
    && Closed(c, frontier, cost, expanded) && PassedOk(c, passed, expanded)
  }

  /** The invariant of the outer loop. */
  ghost predicate Between(c: Config, frontier: Frontier, cameFrom: Links, cost: map<NodeId, nat>,
                          passed: set<EdgeKey>, expanded: set<NodeId>) {
    exists t :: BetweenWith(c, frontier, cameFrom, cost, passed, expanded, t)
  }

  /**
   * The invariant of the scan of `current`'s first `i` edges, with its
   * bookkeeping `t`; the scan started from costs `cost0` and frontier
   * `frontier0` (with `current` popped).
   */
  ghost predicate ScanningWith(c: Config, cost0: map<NodeId, nat>, frontier0: Frontier, expanded: set<NodeId>,
                               current: NodeId, i: nat, frontier: Frontier, cameFrom: Links, cost: map<NodeId, nat>,
                               passed: set<EdgeKey>, t: Trail) {
    && Tracked(c, cameFrom, cost, t)
    && CostOrdered(c, frontier, cost) && cost.Keys <= Universe(c.adj, c.start)
    && ScanFrame(c, expanded, current, i) && ScanCover(frontier, cost, expanded, current, cost0)
    && ScanRelaxed(c.adj, cost, frontier, expanded, current, i)
    && ScanPassed(c, passed, expanded, current, i)
    && ScanProgress(frontier, cost, cost0, frontier0)
  }

  /** The invariant of the scan of `current`'s first `i` edges. */
  ghost predicate Scanning(c: Config, cost0: map<NodeId, nat>, frontier0: Frontier, expanded: set<NodeId>,
                           current: NodeId, i: nat, frontier: Frontier, cameFrom: Links, cost: map<NodeId, nat>,
                           passed: set<EdgeKey>) {
    exists t :: ScanningWith(c, cost0, frontier0, expanded, current, i, frontier, cameFrom, cost, passed, t)
  }

  /** Popping a node that is not the goal and has an adjacency entry starts its scan. */
  lemma PopStartsScan(c: Config, frontier: Frontier, cost: map<NodeId, nat>, passed: set<EdgeKey>,
                      expanded: set<NodeId>, current: NodeId)
    requires Closed(c, frontier, cost, expanded) && PassedOk(c, passed, expanded) && IsMinIn(frontier, current)
    requires current != c.end && current in c.adj
    ensures ScanFrame(c, expanded, current, 0)
    ensures ScanCover(frontier - {current}, cost, expanded, current, cost)
    ensures ScanRelaxed(c.adj, cost, frontier - {current}, expanded, current, 0)
    ensures ScanPassed(c, passed, expanded, current, 0)
  {
    SeqKeysEmpty(c.adj[current]);
    if expanded == {} {
      assert current == c.start;
    }
  }

  /** Scanning edge `i` extends the passed edges by its key when marking. */
  lemma PassedStep(c: Config, passed: set<EdgeKey>, expanded: set<NodeId>, current: NodeId, i: nat)
    requires current in c.adj && i < |c.adj[current]| && ScanPassed(c, passed, expanded, current, i)
    ensures ScanPassed(c, if c.mark then passed + {Key(c.adj[current][i])} else passed, expanded, current, i + 1)
  {
    SeqKeysSnoc(c.adj[current], i);
  }

  /** Scanning an edge that does not improve its target's cost relaxes it as it stands. */
  lemma SkipKeepsRelaxed(adj: Adjacency, cost: map<NodeId, nat>, frontier: Frontier, expanded: set<NodeId>,
                         current: NodeId, i: nat)
    requires current in adj && i < |adj[current]| && current in cost
    requires ScanRelaxed(adj, cost, frontier, expanded, current, i)
    requires adj[current][i].to.id in cost && cost[current] + adj[current][i].length >= cost[adj[current][i].to.id]
    ensures ScanRelaxed(adj, cost, frontier, expanded, current, i + 1)
  {
  }

  /** Progress accumulates over the scan. */
  lemma ProgressStep(cost0: map<NodeId, nat>, cost: map<NodeId, nat>, cost': map<NodeId, nat>, nid: NodeId, newCost: nat)
    requires cost == cost0 || Progress(cost, cost0)
    requires nid !in cost || newCost < cost[nid]
    requires cost' == cost[nid := newCost]
    ensures Progress(cost', cost0)
  {
    if nid in cost {
      assert cost'.Keys == cost.Keys;
      CostSumUpdate(cost, cost.Keys, nid, newCost);
    } else {
      assert nid in cost'.Keys - cost.Keys;
    }
  }

  /** The links stay rooted when `nid` gets the lower cost `newCost` through `current`. */
  lemma UpdateKeepsLinks(c: Config, cameFrom: Links, cost: map<NodeId, nat>, stamp: map<NodeId, nat>, clock: nat,
                         cameFrom': Links, cost': map<NodeId, nat>, stamp': map<NodeId, nat>,
                         current: NodeId, e: Edge, newCost: nat)
    requires LinksOk(c, cameFrom, cost, stamp, clock)
    requires current in c.adj && e in c.adj[current] && current in cost
    requires newCost == cost[current] + e.length
    requires e.to.id !in cost || newCost < cost[e.to.id]
    requires cameFrom' == cameFrom[e.to.id := Some(current)] && cost' == cost[e.to.id := newCost]
    requires stamp' == stamp[e.to.id := clock]
    ensures LinksOk(c, cameFrom', cost', stamp', clock + 1)
  {
    var nid := e.to.id;
    assert nid != current;
    forall v | v in cameFrom' && v != c.start
      ensures cameFrom'[v].Some? && cameFrom'[v].value in cameFrom' && RanksBelow(cost', stamp', cameFrom'[v].value, v)
    {
      if v != nid {
        var u := cameFrom[v].value;
        assert RanksBelow(cost, stamp, u, v);
      }
    }
  }

  /**
   * The link edges stay valid when `nid` gets the lower cost `newCost`
   * through `current`: the new link is exact, and a link out of `nid`
   * only gets cheaper at its source.
   */
  lemma UpdateKeepsVia(c: Config, cameFrom: Links, cost: map<NodeId, nat>, via: map<NodeId, Edge>,
                       cameFrom': Links, cost': map<NodeId, nat>, via': map<NodeId, Edge>,
                       current: NodeId, e: Edge, newCost: nat)
    requires ViaOk(c, cameFrom, cost, via)
    requires current in c.adj && e in c.adj[current] && current in cost
    requires newCost == cost[current] + e.length
    requires e.to.id !in cost || newCost < cost[e.to.id]
    requires cameFrom' == cameFrom[e.to.id := Some(current)] && cost' == cost[e.to.id := newCost]
    requires via' == via[e.to.id := e]
    ensures ViaOk(c, cameFrom', cost', via')
  {
    var nid := e.to.id;
    forall v | v in cameFrom' && cameFrom'[v].Some? ensures v in via' && LinkEdge(c.adj, cost', cameFrom'[v].value, via'[v], v) {
      if v != nid {
        assert LinkEdge(c.adj, cost, cameFrom[v].value, via[v], v);
      }
    }
  }

  /** A newly recorded node is an edge target, so the recorded nodes stay within the universe. */
  lemma UpdateKeepsBound(c: Config, cost: map<NodeId, nat>, cost': map<NodeId, nat>, current: NodeId, e: Edge,
                         newCost: nat)
    requires cost.Keys <= Universe(c.adj, c.start)
    requires current in c.adj && e in c.adj[current] && cost' == cost[e.to.id := newCost]
    ensures cost'.Keys <= Universe(c.adj, c.start)
  {
    assert e.to.id in Targets(c.adj);
  }

  /** The walks stay witnesses when `nid` gets the lower cost `newCost` through `current`. */
  lemma UpdateKeepsWalks(c: Config, cost: map<NodeId, nat>, walks: map<NodeId, seq<Edge>>,
                         cost': map<NodeId, nat>, walks': map<NodeId, seq<Edge>>,
                         current: NodeId, e: Edge, newCost: nat)
    requires WalksOk(c, cost, walks)
    requires current in c.adj && e in c.adj[current] && current in cost
    requires newCost == cost[current] + e.length
    requires cost' == cost[e.to.id := newCost] && walks' == walks[e.to.id := walks[current] + [e]]
    ensures WalksOk(c, cost', walks')
  {
    WalkExtend(c.adj, c.start, walks[current], current, e);
  }

  /** Under cost order, a pushed priority equals the recorded cost. */
  lemma UpdateKeepsOrder(c: Config, frontier: Frontier, frontier': Frontier, cost: map<NodeId, nat>,
                         cost': map<NodeId, nat>, nid: NodeId, priority: nat, newCost: nat)
    requires CostOrdered(c, frontier, cost)
    requires UsesCostOrder(c.alg, c.weight) ==> priority == newCost
    requires frontier' == frontier[nid := priority] && cost' == cost[nid := newCost]
    ensures CostOrdered(c, frontier', cost')
  {
  }

  /** Lowering another node's cost keeps a relaxed edge relaxed. */
  lemma LowerKeepsRelaxedEdge(cost: map<NodeId, nat>, nid: NodeId, newCost: nat, x: NodeId, e: Edge)
    requires RelaxedEdge(cost, x, e) && x != nid
    requires nid !in cost || newCost < cost[nid]
    ensures RelaxedEdge(cost[nid := newCost], x, e)
  {
  }

  /** Recording a new cost for `nid` and pushing it keeps the scan's cover. */
  lemma UpdateKeepsCover(frontier: Frontier, frontier': Frontier, cost: map<NodeId, nat>, cost': map<NodeId, nat>,
                         expanded: set<NodeId>, current: NodeId, cost0: map<NodeId, nat>, nid: NodeId, newCost: nat,
                         priority: nat)
    requires ScanCover(frontier, cost, expanded, current, cost0) && nid != current
    requires frontier' == frontier[nid := priority] && cost' == cost[nid := newCost]
    ensures ScanCover(frontier', cost', expanded, current, cost0)
  {
  }

  /** Recording the improvement through edge `i` keeps the relaxation facts and relaxes that edge. */
  lemma UpdateKeepsRelaxed(adj: Adjacency, cost: map<NodeId, nat>, cost': map<NodeId, nat>, frontier: Frontier,
                           frontier': Frontier, expanded: set<NodeId>, current: NodeId, i: nat, nid: NodeId, newCost: nat,
                           priority: nat)
    requires current in adj && i < |adj[current]| && current in cost
    requires ScanRelaxed(adj, cost, frontier, expanded, current, i)
    requires nid == adj[current][i].to.id && newCost == cost[current] + adj[current][i].length
    requires nid != current && (nid !in cost || newCost < cost[nid])
    requires cost' == cost[nid := newCost] && frontier' == frontier[nid := priority]
    ensures ScanRelaxed(adj, cost', frontier', expanded, current, i + 1)
  {
    forall x | x in expanded && x != current && x !in frontier' ensures Relaxed(adj, cost', x) {
      assert Relaxed(adj, cost, x);
      forall e' | e' in adj[x] ensures RelaxedEdge(cost', x, e') {
        LowerKeepsRelaxedEdge(cost, nid, newCost, x, e');
      }
    }
    forall k | 0 <= k < i + 1 ensures RelaxedEdge(cost', current, adj[current][k]) {
      if k < i {
        LowerKeepsRelaxedEdge(cost, nid, newCost, current, adj[current][k]);
      }
    }
  }

  /** Relaxing every listed edge of `x`, by position, relaxes `x`. */
  lemma AllEdgesRelaxed(adj: Adjacency, cost: map<NodeId, nat>, x: NodeId)
    requires x in adj && forall k :: 0 <= k < |adj[x]| ==> RelaxedEdge(cost, x, adj[x][k])
    ensures Relaxed(adj, cost, x)
  {
    forall e | e in adj[x] ensures RelaxedEdge(cost, x, e) {
      var k :| 0 <= k < |adj[x]| && adj[x][k] == e;
    }
  }

  /** When the scan of `current` is complete, `current` joins the expanded nodes. */
  lemma ScanRestoresClosed(c: Config, frontier: Frontier, cost: map<NodeId, nat>, expanded: set<NodeId>,
                           current: NodeId, cost0: map<NodeId, nat>)
    requires current in c.adj && ScanFrame(c, expanded, current, |c.adj[current]|)
    requires ScanCover(frontier, cost, expanded, current, cost0)
    requires ScanRelaxed(c.adj, cost, frontier, expanded, current, |c.adj[current]|)
    ensures Closed(c, frontier, cost, expanded + {current})
  {
    AllEdgesRelaxed(c.adj, cost, current);
  }

  /** When the scan of `current` is complete, the passed edges are those of the expanded nodes and `current`. */
  lemma ScanRestoresPassed(c: Config, passed: set<EdgeKey>, expanded: set<NodeId>, current: NodeId)
    requires current in c.adj && ScanPassed(c, passed, expanded, current, |c.adj[current]|)
    ensures PassedOk(c, passed, expanded + {current})
  {
    assert c.adj[current][..|c.adj[current]|] == c.adj[current];
    OutgoingKeysAdd(c.adj, expanded, current);
  }

  /** Each round of the outer loop lowers (unseen nodes, cost sum, frontier size) lexicographically. */
  lemma RoundShrinks(universe: set<NodeId>, cost0: map<NodeId, nat>, frontier0: Frontier,
                     cost: map<NodeId, nat>, frontier: Frontier, current: NodeId)
    requires cost0.Keys <= universe && cost.Keys <= universe && current in frontier0
    requires (cost == cost0 && frontier == frontier0 - {current}) || Progress(cost, cost0)
    ensures |universe - cost.Keys| < |universe - cost0.Keys|
         || (|universe - cost.Keys| == |universe - cost0.Keys|
             && (CostSum(cost, cost.Keys) < CostSum(cost0, cost0.Keys)
                 || (CostSum(cost, cost.Keys) == CostSum(cost0, cost0.Keys) && |frontier| < |frontier0|)))
  {
    if cost0.Keys < cost.Keys {
      FewerUnseen(universe, cost0.Keys, cost.Keys);
    } else if cost == cost0 {
      assert frontier.Keys == frontier0.Keys - {current};
    }
  }

  /** Following the links gives a chain of arcs. */
  lemma LinksGiveChain(c: Config, cameFrom: Links, cost: map<NodeId, nat>, via: map<NodeId, Edge>, hops: seq<NodeId>)
    requires ViaOk(c, cameFrom, cost, via)
    requires |hops| > 0 && hops[0] == c.start && hops[|hops| - 1] == c.end
    requires FollowsLinks(cameFrom, hops) && Distinct(hops)
    ensures IsChain(c.adj, hops, c.start, c.end)
  {
    forall i | 0 <= i < |hops| - 1 ensures HasArc(c.adj, hops[i], hops[i + 1]) {
      assert cameFrom[hops[i + 1]] == Some(hops[i]);
      assert LinkEdge(c.adj, cost, hops[i], via[hops[i + 1]], hops[i + 1]);
    }
  }

  /**
   * The link edges along links `hops` form a walk through them, costing at
   * most the difference of the recorded costs at its two ends.
   */
  lemma {:induction false} LinksGiveWalk(c: Config, cameFrom: Links, cost: map<NodeId, nat>, via: map<NodeId, Edge>,
                                         hops: seq<NodeId>)
    returns (p: seq<Edge>)
    requires ViaOk(c, cameFrom, cost, via)
    requires |hops| > 0 && hops[0] in cost && FollowsLinks(cameFrom, hops)
    ensures WalkAlong(c.adj, hops, p) && hops[|hops| - 1] in cost
    ensures cost[hops[0]] + WalkCost(p) <= cost[hops[|hops| - 1]]
    decreases |hops|
  {
    if |hops| == 1 {
      p := [];
    } else {
      var init := hops[..|hops| - 1];
      assert FollowsLinks(cameFrom, init);
      var q := LinksGiveWalk(c, cameFrom, cost, via, init);
      var u, v := hops[|hops| - 2], hops[|hops| - 1];
      assert cameFrom[v] == Some(u);
      assert LinkEdge(c.adj, cost, u, via[v], v);
      WalkAlongSnoc(c.adj, init, q, v, via[v]);
      assert init + [v] == hops;
      p := q + [via[v]];
    }
  }

  /** The state the engine starts from: only `start`, at cost 0, on the frontier. */
  lemma StartHolds(c: Config)
    ensures Between(c, map[c.start := 0], map[c.start := None], map[c.start := 0], {}, {})
  {
    assert BetweenWith(c, map[c.start := 0], map[c.start := None], map[c.start := 0], {}, {},
                       Trail(map[c.start := 0], 1, map[c.start := []], map[]));
  }

  /** Popping a node that is not the goal and has an adjacency entry starts its scan. */
  lemma PopStarts(c: Config, frontier: Frontier, cameFrom: Links, cost: map<NodeId, nat>, passed: set<EdgeKey>,
                  expanded: set<NodeId>, current: NodeId)
    requires Between(c, frontier, cameFrom, cost, passed, expanded) && IsMinIn(frontier, current)
    requires current != c.end && current in c.adj
    ensures Scanning(c, cost, frontier - {current}, expanded, current, 0, frontier - {current}, cameFrom, cost, passed)
  {
    var t :| BetweenWith(c, frontier, cameFrom, cost, passed, expanded, t);
    PopStartsScan(c, frontier, cost, passed, expanded, current);
    assert ScanningWith(c, cost, frontier - {current}, expanded, current, 0, frontier - {current}, cameFrom, cost, passed, t);
  }

  /** Scanning edge `i` when it does not lower its target's cost: only the passed edges may grow. */
  lemma SkipStep(c: Config, cost0: map<NodeId, nat>, frontier0: Frontier, expanded: set<NodeId>, current: NodeId,
                 i: nat, frontier: Frontier, cameFrom: Links, cost: map<NodeId, nat>, passed: set<EdgeKey>,
                 passed': set<EdgeKey>)
    requires Scanning(c, cost0, frontier0, expanded, current, i, frontier, cameFrom, cost, passed)
    requires current in c.adj && i < |c.adj[current]| && current in cost
    requires passed' == (if c.mark then passed + {Key(c.adj[current][i])} else passed)
    requires c.adj[current][i].to.id in cost
    requires cost[current] + c.adj[current][i].length >= cost[c.adj[current][i].to.id]
    ensures Scanning(c, cost0, frontier0, expanded, current, i + 1, frontier, cameFrom, cost, passed')
  {
    var t :| ScanningWith(c, cost0, frontier0, expanded, current, i, frontier, cameFrom, cost, passed, t);
    PassedStep(c, passed, expanded, current, i);
    SkipKeepsRelaxed(c.adj, cost, frontier, expanded, current, i);
    assert ScanningWith(c, cost0, frontier0, expanded, current, i + 1, frontier, cameFrom, cost, passed', t);
  }

  /**
   * Scanning edge `i` when it lowers its target's cost to `newCost`: the
   * target gets the new cost, a link back to `current` and a frontier entry
   * (at the cost itself when priorities are costs).
   */
  lemma ImproveStep(c: Config, cost0: map<NodeId, nat>, frontier0: Frontier, expanded: set<NodeId>,
                    current: NodeId, i: nat, frontier: Frontier, cameFrom: Links, cost: map<NodeId, nat>,
                    passed: set<EdgeKey>, passed': set<EdgeKey>, newCost: nat, priority: nat)
    requires Scanning(c, cost0, frontier0, expanded, current, i, frontier, cameFrom, cost, passed)
    requires current in c.adj && i < |c.adj[current]| && current in cost
    requires passed' == (if c.mark then passed + {Key(c.adj[current][i])} else passed)
    requires newCost == cost[current] + c.adj[current][i].length
    requires c.adj[current][i].to.id !in cost || newCost < cost[c.adj[current][i].to.id]
    requires UsesCostOrder(c.alg, c.weight) ==> priority == newCost
    ensures Scanning(c, cost0, frontier0, expanded, current, i + 1,
                     frontier[c.adj[current][i].to.id := priority],
                     cameFrom[c.adj[current][i].to.id := Some(current)],
                     cost[c.adj[current][i].to.id := newCost], passed')
  {
    var e := c.adj[current][i];
    var nid := e.to.id;
    var t :| ScanningWith(c, cost0, frontier0, expanded, current, i, frontier, cameFrom, cost, passed, t);
    assert e in c.adj[current];
    var t' := Record(t, current, e);
    var frontier', cameFrom', cost' := frontier[nid := priority], cameFrom[nid := Some(current)], cost[nid := newCost];
    UpdateKeepsLinks(c, cameFrom, cost, t.stamp, t.clock, cameFrom', cost', t'.stamp, current, e, newCost);
    UpdateKeepsVia(c, cameFrom, cost, t.via, cameFrom', cost', t'.via, current, e, newCost);
    UpdateKeepsWalks(c, cost, t.walks, cost', t'.walks, current, e, newCost);
    UpdateKeepsOrder(c, frontier, frontier', cost, cost', nid, priority, newCost);
    UpdateKeepsBound(c, cost, cost', current, e, newCost);
    UpdateKeepsCover(frontier, frontier', cost, cost', expanded, current, cost0, nid, newCost, priority);
    UpdateKeepsRelaxed(c.adj, cost, cost', frontier, frontier', expanded, current, i, nid, newCost, priority);
    ProgressStep(cost0, cost, cost', nid, newCost);
    PassedStep(c, passed, expanded, current, i);
    assert ScanningWith(c, cost0, frontier0, expanded, current, i + 1, frontier', cameFrom', cost', passed', t');
  }

  /** Once all of `current`'s edges are scanned, `current` counts as expanded and the round is over. */
  lemma ScanDone(c: Config, cost0: map<NodeId, nat>, frontier0: Frontier, expanded: set<NodeId>, current: NodeId,
                 frontier: Frontier, cameFrom: Links, cost: map<NodeId, nat>, passed: set<EdgeKey>)
    requires current in c.adj
    requires Scanning(c, cost0, frontier0, expanded, current, |c.adj[current]|, frontier, cameFrom, cost, passed)
    ensures Between(c, frontier, cameFrom, cost, passed, expanded + {current})
  {
    var t :| ScanningWith(c, cost0, frontier0, expanded, current, |c.adj[current]|, frontier, cameFrom, cost, passed, t);
    ScanRestoresClosed(c, frontier, cost, expanded, current, cost0);
    ScanRestoresPassed(c, passed, expanded, current);
    assert BetweenWith(c, frontier, cameFrom, cost, passed, expanded + {current}, t);
  }

  /**
   * When the goal is the least frontier node, it has a recorded cost and a
   * link; under cost order that cost is a lower bound on every walk to it.
   * When the goal is the start, nothing has been scanned or passed yet.
   */
  lemma GoalPopped(c: Config, frontier: Frontier, cameFrom: Links, cost: map<NodeId, nat>, passed: set<EdgeKey>,
                   expanded: set<NodeId>)
    requires Between(c, frontier, cameFrom, cost, passed, expanded) && IsMinIn(frontier, c.end)
    ensures c.end in cost && c.end in cameFrom && c.end in frontier
    ensures UsesCostOrder(c.alg, c.weight) ==> IsLowerBound(c.adj, c.start, c.end, cost[c.end])
    ensures c.start == c.end ==> passed == {} && cost[c.end] == 0
  {
    var t :| BetweenWith(c, frontier, cameFrom, cost, passed, expanded, t);
    if UsesCostOrder(c.alg, c.weight) {
      MinIsLowerBound(c.adj, c.start, cost, frontier, expanded, c.end);
    }
    if c.start == c.end {
      assert expanded == {};
      assert OutgoingKeys(c.adj, {}) == {};
    }
  }

  /** The links descend in rank towards the start, for some ranking by update time. */
  lemma LinkRanks(c: Config, frontier: Frontier, cameFrom: Links, cost: map<NodeId, nat>, passed: set<EdgeKey>,
                  expanded: set<NodeId>)
    returns (stamp: map<NodeId, nat>)
    requires Between(c, frontier, cameFrom, cost, passed, expanded)
    ensures RootedAt(cameFrom, c.start, cost, stamp)
  {
    var t :| BetweenWith(c, frontier, cameFrom, cost, passed, expanded, t);
    stamp := t.stamp;
  }

  /** Every frontier node was reached by a walk from the start. */
  lemma FrontierReachable(c: Config, frontier: Frontier, cameFrom: Links, cost: map<NodeId, nat>,
                          passed: set<EdgeKey>, expanded: set<NodeId>, v: NodeId)
    requires Between(c, frontier, cameFrom, cost, passed, expanded) && v in frontier
    ensures Reachable(c.adj, c.start, v)
  {
    var t :| BetweenWith(c, frontier, cameFrom, cost, passed, expanded, t);
    assert IsWalk(c.adj, c.start, t.walks[v], v);
  }

  /** A popped node other than the goal without adjacency entry: it was reached, and the run did not start at the goal. */
  lemma StuckAt(c: Config, frontier: Frontier, cameFrom: Links, cost: map<NodeId, nat>,
                passed: set<EdgeKey>, expanded: set<NodeId>, v: NodeId)
    requires Between(c, frontier, cameFrom, cost, passed, expanded)
    requires v in frontier && v != c.end && v !in c.adj
    ensures Reachable(c.adj, c.start, v) && c.start != c.end
  {
    FrontierReachable(c, frontier, cameFrom, cost, passed, expanded, v);
    var t :| BetweenWith(c, frontier, cameFrom, cost, passed, expanded, t);
  }

  /** Once the frontier is drained without popping the goal, the goal has no link and is unreachable. */
  lemma Drained(c: Config, cameFrom: Links, cost: map<NodeId, nat>, passed: set<EdgeKey>, expanded: set<NodeId>)
    requires Between(c, map[], cameFrom, cost, passed, expanded)
    ensures c.end !in cameFrom && c.end != c.start
    ensures !Reachable(c.adj, c.start, c.end)
  {
    var t :| BetweenWith(c, map[], cameFrom, cost, passed, expanded, t);
    DrainedMeansUnreachable(c.adj, c.start, cost, expanded, c.end);
  }

  // ---------------------------------------------------------------------
  // What a run returns.

  /**
   * `passed` is every outgoing edge of the nodes `xs`, which are reachable
   * from `start`, hold `start` unless the goal is the start, and never hold
   * the goal.
   */
  ghost predicate PassedFrom(adj: Adjacency, start: NodeId, end: NodeId, xs: set<NodeId>, passed: set<EdgeKey>) {
    && xs <= adj.Keys && end !in xs && (start != end ==> start in xs)
    && (forall x :: x in xs ==> Reachable(adj, start, x))
    && passed == OutgoingKeys(adj, xs)
  }

  /** The passed edges: none when marking is off, otherwise those of some set of nodes as in PassedFrom. */
  ghost predicate PassedSound(adj: Adjacency, start: NodeId, end: NodeId, mark: bool, passed: set<EdgeKey>) {
    if mark then exists xs :: PassedFrom(adj, start, end, xs, passed) else passed == {}
  }

  /**
   * The selected edges are the hops of a chain of distinct nodes from start
   * to goal, one key per hop, and a walk of listed edges through those
   * nodes costs no more than the total cost.
   */
  ghost predicate IsPathOutput(adj: Adjacency, start: NodeId, end: NodeId, selected: set<EdgeKey>, totalCost: nat) {
    exists hops, p :: && IsChain(adj, hops, start, end) && selected == ChainKeys(hops) && |selected| == |hops| - 1
                      && WalkAlong(adj, hops, p) && WalkCost(p) <= totalCost
  }

  /**
   * A successful run: the total cost is the cost of a walk to the goal (and
   * the least such cost when priorities are costs), the selected edges are
   * a path to the goal that costs no more, and the passed edges are sound.
   */
  ghost predicate IsRunOutput(adj: Adjacency, start: NodeId, end: NodeId, mark: bool, alg: AlgorithmType,
                              weight: nat, out: RunOutput) {
    && HasWalkOfCost(adj, start, end, out.totalCost)
    && (UsesCostOrder(alg, weight) ==> IsLowerBound(adj, start, end, out.totalCost))
    && IsPathOutput(adj, start, end, out.selectedEdges, out.totalCost)
    && PassedSound(adj, start, end, mark, out.passedEdges)
  }

  /**
   * The links walked back from the goal give a chain from the start whose
   * keys are `selected`, and a walk along it costing at most the goal's
   * recorded cost.
   */
  lemma BacktrackGivesPath(c: Config, cameFrom: Links, cost: map<NodeId, nat>, via: map<NodeId, Edge>,
                           stamp: map<NodeId, nat>, hops: seq<NodeId>, selected: set<EdgeKey>)
    requires ViaOk(c, cameFrom, cost, via) && c.start in cost && cost[c.start] == 0
    requires Backtrack(cameFrom, cost, stamp, hops, c.start, c.end, selected)
    ensures c.end in cost && IsPathOutput(c.adj, c.start, c.end, selected, cost[c.end])
  {
    LinksGiveChain(c, cameFrom, cost, via, hops);
    var p := LinksGiveWalk(c, cameFrom, cost, via, hops);
    assert WalkAlong(c.adj, hops, p) && WalkCost(p) <= cost[c.end];
  }

  /** The edges passed by the expanded nodes, which all have walks from the start, are sound. */
  lemma ExpandedPassedSound(c: Config, cost: map<NodeId, nat>, walks: map<NodeId, seq<Edge>>, passed: set<EdgeKey>,
                            expanded: set<NodeId>)
    requires WalksOk(c, cost, walks) && expanded <= cost.Keys && expanded <= c.adj.Keys && c.end !in expanded
    requires c.start != c.end ==> c.start in expanded
    requires PassedOk(c, passed, expanded)
    ensures PassedSound(c.adj, c.start, c.end, c.mark, passed)
  {
    if c.mark {
      forall x | x in expanded ensures Reachable(c.adj, c.start, x) {
        assert IsWalk(c.adj, c.start, walks[x], x);
      }
      assert PassedFrom(c.adj, c.start, c.end, expanded, passed);
    }
  }

  /** The facts of the outer loop's invariant that the output of a run rests on, when the goal is on the frontier. */
  lemma FoundFacts(c: Config, frontier: Frontier, cameFrom: Links, cost: map<NodeId, nat>, passed: set<EdgeKey>,
                   expanded: set<NodeId>)
    returns (t: Trail)
    requires Between(c, frontier, cameFrom, cost, passed, expanded) && c.end in frontier
    ensures ViaOk(c, cameFrom, cost, t.via) && WalksOk(c, cost, t.walks)
    ensures c.start in cost && cost[c.start] == 0
    ensures expanded <= cost.Keys && expanded <= c.adj.Keys && c.end !in expanded
    ensures c.start != c.end ==> c.start in expanded
    ensures PassedOk(c, passed, expanded)
  {
    t :| BetweenWith(c, frontier, cameFrom, cost, passed, expanded, t);
  }

  /** When the goal was popped, walking its links back gives the output a run promises. */
  lemma FoundIsOutput(c: Config, frontier: Frontier, cameFrom: Links, cost: map<NodeId, nat>, passed: set<EdgeKey>,
                      expanded: set<NodeId>, totalCost: nat, selected: set<EdgeKey>, stamp: map<NodeId, nat>)
    requires Between(c, frontier, cameFrom, cost, passed, expanded)
    requires c.end in frontier && c.end in cost && totalCost == cost[c.end]
    requires UsesCostOrder(c.alg, c.weight) ==> IsLowerBound(c.adj, c.start, c.end, totalCost)
    requires exists hops :: Backtrack(cameFrom, cost, stamp, hops, c.start, c.end, selected)
    ensures IsRunOutput(c.adj, c.start, c.end, c.mark, c.alg, c.weight, RunOutput(selected, passed, totalCost))
  {
    var t := FoundFacts(c, frontier, cameFrom, cost, passed, expanded);
    var hops :| Backtrack(cameFrom, cost, stamp, hops, c.start, c.end, selected);
    BacktrackGivesPath(c, cameFrom, cost, t.via, stamp, hops, selected);
    assert IsWalk(c.adj, c.start, t.walks[c.end], c.end);
    ExpandedPassedSound(c, cost, t.walks, passed, expanded);
  }

  /**
   * One pass of the inner loop of `run_pathfinding_algorithm` over edge `i`
   * of `current`: record the edge as passed when marking; when it reaches
   * its target more cheaply than any recorded cost, record the new cost,
   * push the target with the algorithm's priority and link it back to
   * `current`.
   */
  method RelaxEdge(c: Config, end: Node, useManhattan: bool, dist: Distance, current: NodeId, i: nat,
                   ghost cost0: map<NodeId, nat>, ghost frontier0: Frontier, ghost expanded: set<NodeId>,
                   frontier: Frontier, cameFrom: Links, cost: map<NodeId, nat>, passed: set<EdgeKey>)
    returns (frontier': Frontier, cameFrom': Links, cost': map<NodeId, nat>, passed': set<EdgeKey>)
    requires end.id == c.end && current in c.adj && i < |c.adj[current]|
    requires Scanning(c, cost0, frontier0, expanded, current, i, frontier, cameFrom, cost, passed)
    ensures Scanning(c, cost0, frontier0, expanded, current, i + 1, frontier', cameFrom', cost', passed')
  {
    var next := c.adj[current][i];
    passed' := if c.mark then passed + {Key(next)} else passed;
    var newCost := cost[current] + next.length;
    var nid := next.to.id;
    if nid !in cost || newCost < cost[nid] {
      var priority := Priority(c.alg, c.weight, newCost, next.to, end, useManhattan, dist);
      ImproveStep(c, cost0, frontier0, expanded, current, i, frontier, cameFrom, cost, passed, passed',
                  newCost, priority);
      cost' := cost[nid := newCost];
      frontier' := frontier[nid := priority];
      cameFrom' := cameFrom[nid := Some(current)];
    } else {
      SkipStep(c, cost0, frontier0, expanded, current, i, frontier, cameFrom, cost, passed, passed');
      frontier', cameFrom', cost' := frontier, cameFrom, cost;
    }
  }

  /**
   * The inner loop of `run_pathfinding_algorithm` for the popped node
   * `current`: relax each of its edges in order (`RelaxEdge`).
   */
  method ScanNeighbors(c: Config, end: Node, useManhattan: bool, dist: Distance, current: NodeId,
                       frontier0: Frontier, cameFrom0: Links, cost0: map<NodeId, nat>, passed0: set<EdgeKey>,
                       ghost expanded: set<NodeId>, ghost frontierBefore: Frontier)
    returns (frontier: Frontier, cameFrom: Links, cost: map<NodeId, nat>, passed: set<EdgeKey>)
    requires end.id == c.end && current in c.adj
    requires current in frontierBefore && frontier0 == frontierBefore - {current}
    requires Scanning(c, cost0, frontier0, expanded, current, 0, frontier0, cameFrom0, cost0, passed0)
    ensures Between(c, frontier, cameFrom, cost, passed, expanded + {current})
    ensures |Universe(c.adj, c.start) - cost.Keys| < |Universe(c.adj, c.start) - cost0.Keys|
         || (|Universe(c.adj, c.start) - cost.Keys| == |Universe(c.adj, c.start) - cost0.Keys|
             && (CostSum(cost, cost.Keys) < CostSum(cost0, cost0.Keys)
                 || (CostSum(cost, cost.Keys) == CostSum(cost0, cost0.Keys) && |frontier| < |frontierBefore|)))
  {
    frontier, cameFrom, cost, passed := frontier0, cameFrom0, cost0, passed0;
    for i := 0 to |c.adj[current]|
      invariant Scanning(c, cost0, frontier0, expanded, current, i, frontier, cameFrom, cost, passed)
    {
      frontier, cameFrom, cost, passed :=
        RelaxEdge(c, end, useManhattan, dist, current, i, cost0, frontier0, expanded, frontier, cameFrom, cost, passed);
    }
    ScanDone(c, cost0, frontier0, expanded, current, frontier, cameFrom, cost, passed);
    RoundShrinks(Universe(c.adj, c.start), cost0, frontierBefore, cost, frontier, current);
  }

  /**
   * The main loop of `run_pathfinding_algorithm`: pop the frontier node of
   * least priority; stop at the goal; stop with the node when it has no
   * adjacency entry; otherwise scan its edges (`ScanNeighbors`). `found`
   * tells whether the goal was popped, `expanded` which nodes were scanned.
   */
  method Explore(c: Config, end: Node, useManhattan: bool, dist: Distance)
    returns (missing: Option<NodeId>, frontier: Frontier, cameFrom: Links, cost: map<NodeId, nat>,
             passed: set<EdgeKey>, ghost expanded: set<NodeId>, found: bool)
    requires end.id == c.end
    ensures missing.Some? ==> missing.value !in c.adj && missing.value != c.end && Reachable(c.adj, c.start, missing.value)
    ensures missing.Some? ==> c.start != c.end
    ensures missing.None? ==> Between(c, frontier, cameFrom, cost, passed, expanded)
    ensures found ==> missing.None? && IsMinIn(frontier, c.end)
    ensures missing.None? && !found ==> frontier == map[]
  {
    missing := None;
    passed := {};
    frontier := map[c.start := 0];
    cameFrom := map[c.start := None];
    cost := map[c.start := 0];
    expanded := {};
    found := false;
    StartHolds(c);

    while frontier != map[]
      invariant Between(c, frontier, cameFrom, cost, passed, expanded)
      invariant !found && missing == None
      decreases |Universe(c.adj, c.start) - cost.Keys|, CostSum(cost, cost.Keys), |frontier|
    {
      MinExists(frontier);
      var current :| IsMinIn(frontier, current);
      if current == c.end {
        found := true;
        break;
      }
      if current !in c.adj {
        StuckAt(c, frontier, cameFrom, cost, passed, expanded, current);
        missing := Some(current);
        break;
      }
      ghost var frontier0 := frontier;
      PopStarts(c, frontier, cameFrom, cost, passed, expanded, current);
      frontier := frontier - {current};
      frontier, cameFrom, cost, passed :=
        ScanNeighbors(c, end, useManhattan, dist, current, frontier, cameFrom, cost, passed, expanded, frontier0);
      expanded := expanded + {current};
    }
  }

  /**
   * `run_pathfinding_algorithm`: search (`Explore`), then walk the links
   * back from the goal (`ReconstructPath`).
   */
  method RunPathfinding(start: Node, end: Node, adj: Adjacency, markPassedEdges: bool, alg: AlgorithmType,
                        weight: nat, useManhattan: bool, dist: Distance)
    returns (res: Result<RunOutput, SearchError>)
    ensures res.Ok? ==> IsRunOutput(adj, start.id, end.id, markPassedEdges, alg, weight, res.value)
    ensures res == Err(Unreachable) ==> start.id != end.id && !Reachable(adj, start.id, end.id)
    ensures res.Err? && res.error.MissingNeighbors? ==>
      var n := res.error.node; n !in adj && n != end.id && Reachable(adj, start.id, n)
    ensures start.id == end.id ==> res == Ok(RunOutput({}, {}, 0))
  {
    var c := Config(adj, start.id, end.id, markPassedEdges, alg, weight);
    var missing, frontier, cameFrom, cost, passed, expanded, found := Explore(c, end, useManhattan, dist);
    if missing.Some? {
      return Err(MissingNeighbors(missing.value));
    }
    var totalCost := 0;
    if found {
      GoalPopped(c, frontier, cameFrom, cost, passed, expanded);
      totalCost := cost[end.id];
    } else {
      Drained(c, cameFrom, cost, passed, expanded);
    }
    ghost var stamp := LinkRanks(c, frontier, cameFrom, cost, passed, expanded);
    var selected := ReconstructPath(cameFrom, start.id, end.id, cost, stamp);
    if selected.Err? {
      return Err(Unreachable);
    }
    assert found;
    FoundIsOutput(c, frontier, cameFrom, cost, passed, expanded, totalCost, selected.value, stamp);
    res := Ok(RunOutput(selected.value, passed, totalCost));
  }
}
