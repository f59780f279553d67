/**
 * The algorithm context (src/contexts/algorithm_context.rs:44-144): the
 * user's search settings, the edges of the path on display, and a memo of
 * the outputs of earlier runs keyed by everything a run depends on except
 * the graph, which is assumed never to change while the context lives.
 */
module AlgorithmContexts {
  import opened Wrappers
  import opened Nodes
  import opened Graph
  import opened Search

  /** (start, end, is_marking_passed_edges, algorithm_type, astar_weight, use_manhattan); nodes by id. */
  datatype RunArgs = RunArgs(start: NodeId, end: NodeId, mark: bool, alg: AlgorithmType, weight: nat,
                             useManhattan: bool)

  /** The output memoized for `k`. */
  function Memoized(runs: map<RunArgs, RunOutput>, k: RunArgs): RunOutput
    requires k in runs
  {
    runs[k]
  }

  /**
   * Every memoized output is what a run with its arguments may return on
   * `adj`. (The trigger keeps this fact from being applied to every lookup
   * of the memo, only to those that ask for a memoized output.)
   */
  ghost predicate MemoSound(adj: Adjacency, runs: map<RunArgs, RunOutput>) {
    forall k {:trigger Memoized(runs, k)} :: k in runs ==>
      IsRunOutput(adj, k.start, k.end, k.mark, k.alg, k.weight, Memoized(runs, k))
  }

  /** Memoizing an output a run may return keeps the memo sound. */
  lemma MemoInsert(adj: Adjacency, runs: map<RunArgs, RunOutput>, k: RunArgs, out: RunOutput)
    requires MemoSound(adj, runs) && IsRunOutput(adj, k.start, k.end, k.mark, k.alg, k.weight, out)
    ensures MemoSound(adj, runs[k := out])
  {
    forall j | j in runs[k := out]
      ensures IsRunOutput(adj, j.start, j.end, j.mark, j.alg, j.weight, Memoized(runs[k := out], j))
    {
      if j != k {
        assert Memoized(runs[k := out], j) == Memoized(runs, j);
      }
    }
  }

  class AlgorithmContext {
    var isMarkingPassedEdges: bool
    var algorithmType: AlgorithmType
    var astarWeight: nat
    var totalCost: nat
    var useManhattan: bool
    var selectedEdges: set<EdgeKey>
    var passedEdges: set<EdgeKey>
    var currentRunArgs: Option<RunArgs>
    var computedRuns: map<RunArgs, RunOutput>

    /** The run arguments a search from `start` to `end` would have under the current settings. */
    function ArgsFor(start: Node, end: Node): RunArgs
      reads this
    {
      RunArgs(start.id, end.id, isMarkingPassedEdges, algorithmType, astarWeight, useManhattan)
    }

    /** The output on display. */
    function Shown(): RunOutput
      reads this
    {
      RunOutput(selectedEdges, passedEdges, totalCost)
    }

    /**
     * Every memoized output is what a run with its arguments may return on
     * `adj`, and the output on display is the memoized output of the
     * current arguments.
     */
    ghost predicate Consistent(adj: Adjacency)
      reads this
    {
      && MemoSound(adj, computedRuns)
      && (currentRunArgs.Some? ==>
            currentRunArgs.value in computedRuns && Shown() == computedRuns[currentRunArgs.value])
    }

    /** `AlgorithmContext::new`: HybridAStar with weight 1, Manhattan distance, no marking, nothing computed. */
    constructor ()
      ensures !isMarkingPassedEdges && algorithmType == HybridAStar && astarWeight == 1
      ensures totalCost == 0 && useManhattan
      ensures selectedEdges == {} && passedEdges == {}
      ensures currentRunArgs == None && computedRuns == map[]
      ensures forall adj :: Consistent(adj)
    {
      isMarkingPassedEdges := false;
      algorithmType := HybridAStar;
      astarWeight := 1;
      totalCost := 0;
      useManhattan := true;
      selectedEdges := {};
      passedEdges := {};
      currentRunArgs := None;
      computedRuns := map[];
    }

    /** `is_edge_selected`: the edge (by its endpoints) is on the path on display. */
    function IsEdgeSelected(e: Edge): (r: bool)
      reads this
      ensures r <==> EdgeKey(e.from.id, e.to.id) in Shown().selectedEdges
    {
      Key(e) in selectedEdges
    }

    /** `is_edge_passed`: the edge (by its endpoints) was scanned by the run on display. */
    function IsEdgePassed(e: Edge): (r: bool)
      reads this
      ensures r <==> EdgeKey(e.from.id, e.to.id) in Shown().passedEdges
    {
      Key(e) in passedEdges
    }

    /**
     * `is_new_args`: compared field by field, the arguments of a search from
     * `start` to `end` under the current settings differ from those of the
     * run on display (or nothing is on display).
     */
    function IsNewArgs(start: Node, end: Node): (r: bool)
      reads this
      ensures r <==> currentRunArgs != Some(ArgsFor(start, end))
    {
      match currentRunArgs
      case None => true
      case Some(a) =>
        || a.start != start.id
        || a.end != end.id
        || a.mark != isMarkingPassedEdges
        || a.alg != algorithmType
        || a.weight != astarWeight
        || a.useManhattan != useManhattan
    }

    /** `is_using_astar`: the frontier order involves the heuristic. */
    function IsUsingAStar(): (r: bool)
      reads this
      ensures r <==> algorithmType != Dijkstra
      ensures !r ==> UsesCostOrder(algorithmType, astarWeight)
    {
      algorithmType == AStar || algorithmType == HybridAStar
    }

    /**
     * The `Entry::Vacant` branch of `compute_path`: unless the arguments of
     * a search from `from` to `to` are memoized, run the search and memoize
     * its output. Only the memo changes, and only at those arguments.
     */
    method Memoize(from: Node, to: Node, adj: Adjacency, dist: Distance) returns (err: Option<SearchError>)
      requires MemoSound(adj, computedRuns)
      modifies this`computedRuns
      ensures MemoSound(adj, computedRuns)
      ensures old(ArgsFor(from, to)) in old(computedRuns) ==> err == None && computedRuns == old(computedRuns)
      ensures err.Some? ==> computedRuns == old(computedRuns)
      ensures err.None? ==> ArgsFor(from, to) in computedRuns
      ensures err.None? ==> computedRuns == old(computedRuns)[ArgsFor(from, to) := computedRuns[ArgsFor(from, to)]]
      ensures err == Some(Unreachable) ==> from.id != to.id && !Reachable(adj, from.id, to.id)
      ensures err.Some? && err.value.MissingNeighbors? ==>
        err.value.node !in adj && Reachable(adj, from.id, err.value.node)
    {
      var key := RunArgs(from.id, to.id, isMarkingPassedEdges, algorithmType, astarWeight, useManhattan);
      if key in computedRuns {
        return None;
      }
      var out := RunPathfinding(from, to, adj, isMarkingPassedEdges, algorithmType, astarWeight, useManhattan, dist);
      if out.Err? {
        return Some(out.error);
      }
      MemoInsert(adj, computedRuns, key, out.value);
      computedRuns := computedRuns[key := out.value];
      err := None;
    }

    /**
     * `compute_path`: nothing to do when the arguments are those on display;
     * otherwise memoize the search's output (`Memoize`), display it and
     * remember the arguments. A failed run (a panic of the engine) is
     * reported and leaves the context as it was.
     */
    method ComputePath(from: Node, to: Node, adj: Adjacency, dist: Distance) returns (err: Option<SearchError>)
      requires Consistent(adj)
      modifies this`selectedEdges, this`passedEdges, this`totalCost, this`currentRunArgs, this`computedRuns
      ensures Consistent(adj)
      ensures !old(IsNewArgs(from, to)) ==> err == None && unchanged(this)
      ensures old(ArgsFor(from, to)) in old(computedRuns) ==> err == None && computedRuns == old(computedRuns)
      ensures err.Some? ==> unchanged(this)
      ensures err == Some(Unreachable) ==> from.id != to.id && !Reachable(adj, from.id, to.id)
      ensures err.Some? && err.value.MissingNeighbors? ==>
        err.value.node !in adj && Reachable(adj, from.id, err.value.node)
      ensures err.None? ==> currentRunArgs == Some(ArgsFor(from, to)) && !IsNewArgs(from, to)
      ensures err.None? ==> computedRuns == old(computedRuns)[ArgsFor(from, to) := Shown()]
    {
      if !IsNewArgs(from, to) {
        return None;
      }
      err := Memoize(from, to, adj, dist);
      if err.Some? {
        return;
      }
      var key := RunArgs(from.id, to.id, isMarkingPassedEdges, algorithmType, astarWeight, useManhattan);
      var shown := computedRuns[key];
      selectedEdges, passedEdges, totalCost, currentRunArgs :=
        shown.selectedEdges, shown.passedEdges, shown.totalCost, Some(key);
    }
  }

  /**
   * The edges on display form a path: they are the hops of a chain of
   * distinct nodes from the start of the current arguments to their end,
   * one edge per hop, and some walk of listed edges through those nodes
   * costs at most the cost on display; under Dijkstra (or HybridAStar with
   * weight 0) it costs exactly that.
   */
  lemma ShownPathIsChain(ctx: AlgorithmContext, adj: Adjacency)
    requires ctx.Consistent(adj) && ctx.currentRunArgs.Some?
    ensures exists hops, p :: && IsChain(adj, hops, ctx.currentRunArgs.value.start, ctx.currentRunArgs.value.end)
                              && ctx.selectedEdges == ChainKeys(hops)
                              && |ctx.selectedEdges| == |hops| - 1
                              && WalkAlong(adj, hops, p) && WalkCost(p) <= ctx.totalCost
                              && (UsesCostOrder(ctx.currentRunArgs.value.alg, ctx.currentRunArgs.value.weight) ==>
                                    WalkCost(p) == ctx.totalCost)
  {
    var k := ctx.currentRunArgs.value;
    assert IsRunOutput(adj, k.start, k.end, k.mark, k.alg, k.weight, Memoized(ctx.computedRuns, k));
    var hops, p :| && IsChain(adj, hops, k.start, k.end) && ctx.selectedEdges == ChainKeys(hops)
                   && |ctx.selectedEdges| == |hops| - 1 && WalkAlong(adj, hops, p) && WalkCost(p) <= ctx.totalCost;
    if UsesCostOrder(k.alg, k.weight) {
      WalkAlongIsWalk(adj, hops, p);
    }
  }

  /**
   * The cost on display is that of a walk from the start to the end, and
   * under Dijkstra (or HybridAStar with weight 0) no walk is cheaper.
   */
  lemma ShownCostIsWalkCost(ctx: AlgorithmContext, adj: Adjacency)
    requires ctx.Consistent(adj) && ctx.currentRunArgs.Some?
    ensures HasWalkOfCost(adj, ctx.currentRunArgs.value.start, ctx.currentRunArgs.value.end, ctx.totalCost)
    ensures UsesCostOrder(ctx.currentRunArgs.value.alg, ctx.currentRunArgs.value.weight) ==>
      IsLowerBound(adj, ctx.currentRunArgs.value.start, ctx.currentRunArgs.value.end, ctx.totalCost)
  {
    var k := ctx.currentRunArgs.value;
    assert IsRunOutput(adj, k.start, k.end, k.mark, k.alg, k.weight, Memoized(ctx.computedRuns, k));
  }

  /** The passed edges on display are those a run with the current arguments may report. */
  lemma ShownPassedIsSound(ctx: AlgorithmContext, adj: Adjacency)
    requires ctx.Consistent(adj) && ctx.currentRunArgs.Some?
    ensures PassedSound(adj, ctx.currentRunArgs.value.start, ctx.currentRunArgs.value.end,
                        ctx.currentRunArgs.value.mark, ctx.passedEdges)
  {
    var k := ctx.currentRunArgs.value;
    assert IsRunOutput(adj, k.start, k.end, k.mark, k.alg, k.weight, Memoized(ctx.computedRuns, k));
  }

  /**
   * An edge highlighted as passed has the endpoints of an edge listed for a
   * node, other than the end, that the run on display reached from its
   * start; and it can only be highlighted when that run marked passed edges.
   */
  lemma PassedEdgeWasScanned(ctx: AlgorithmContext, adj: Adjacency, e: Edge)
    requires ctx.Consistent(adj) && ctx.currentRunArgs.Some? && ctx.IsEdgePassed(e)
    ensures ctx.currentRunArgs.value.mark
    ensures exists x :: && x in adj && Key(e) in SeqKeys(adj[x])
                        && x != ctx.currentRunArgs.value.end && Reachable(adj, ctx.currentRunArgs.value.start, x)
  {
    var k := ctx.currentRunArgs.value;
    ShownPassedIsSound(ctx, adj);
    var xs :| PassedFrom(adj, k.start, k.end, xs, ctx.passedEdges);
    assert Key(e) in OutgoingKeys(adj, xs);
    var x, e' :| x in xs && x in adj && e' in adj[x] && Key(e') == Key(e);
    assert Key(e) in SeqKeys(adj[x]);
  }

  /**
   * Whether an edge is on display depends only on its endpoints' ids: its
   * length and the nodes' positions play no part (so a path edge rebuilt
   * with length 0 matches the graph's edge).
   */
  lemma DisplayIgnoresLength(ctx: AlgorithmContext, a: Edge, b: Edge)
    requires a.from.id == b.from.id && a.to.id == b.to.id
    ensures ctx.IsEdgeSelected(a) == ctx.IsEdgeSelected(b)
    ensures ctx.IsEdgePassed(a) == ctx.IsEdgePassed(b)
  {
  }
}
