/**
 * The map view (src/map.rs): the start/end selection that clicks on nodes
 * drive, the request of a path once both ends are picked, and the sorting
 * of every graph edge into the three layers it is painted in.
 */
module MapView {
  import opened Wrappers
  import opened Nodes
  import opened Graph
  import opened Search
  import opened AlgorithmContexts

  /** The start and end picks of the selection, as a value. */
  datatype Picks = Picks(start: Option<Node>, end: Option<Node>)

  /** The node with id `id` is one of the picks. */
  predicate Picked(p: Picks, id: NodeId) {
    || (p.start.Some? && p.start.value.id == id)
    || (p.end.Some? && p.end.value.id == id)
  }

  /**
   * The picks after a click on `n`: with no start, `n` becomes the start;
   * with a start only, a click on it drops it and any other click sets the
   * end; with both, a click on the start or on the end drops that pick and
   * a click elsewhere starts over from `n`. Nodes are compared by id.
   */
  function Click(p: Picks, n: Node): Picks {
    match p.start
    case None => Picks(Some(n), p.end)
    case Some(s) =>
      if SameNode(s, n) then Picks(None, p.end)
      else match p.end
        case None => Picks(Some(s), Some(n))
        case Some(e) =>
          if SameNode(e, n) then Picks(Some(s), None)
          else Picks(Some(n), None)
  }

  /** A click on a node that is not picked picks it. */
  lemma ClickPicksUnpicked(p: Picks, n: Node)
    requires !Picked(p, n.id)
    ensures Picked(Click(p, n), n.id)
    ensures Click(p, n).start == Some(n) || Click(p, n).end == Some(n)
  {
  }

  /**
   * A click on a picked node drops it, except when it is the end and no
   * start is picked, or it is both the start and the end.
   */
  lemma ClickDropsPicked(p: Picks, n: Node)
    requires Picked(p, n.id)
    requires p.start.Some?
    requires !(p.end.Some? && SameNode(p.start.value, n) && SameNode(p.end.value, n))
    ensures !Picked(Click(p, n), n.id)
  {
  }

  /** A click picks no node other than the clicked one. */
  lemma ClickPicksOnlyClicked(p: Picks, n: Node, id: NodeId)
    requires id != n.id && Picked(Click(p, n), id)
    ensures Picked(p, id)
  {
  }

  /**
   * A click leaves both ends picked exactly when it sets the end next to a
   * lone start, or sets the start next to a lone end.
   */
  lemma ClickCompletesPair(p: Picks, n: Node)
    ensures Click(p, n).start.Some? && Click(p, n).end.Some? <==>
      || (p.start.Some? && p.end.None? && p.start.value.id != n.id)
      || (p.start.None? && p.end.Some?)
  {
  }

  /**
   * The selection can make one node both start and end: pick `a`, pick `b`
   * as the end, click `a` again to drop the start, then click `b`.
   */
  lemma {:induction false} StartCanEqualEnd(a: Node, b: Node)
    requires a.id != b.id
    ensures var p := Click(Click(Click(Click(Picks(None, None), a), b), a), b);
      p.start == Some(b) && p.end == Some(b)
  {
    var p1 := Click(Picks(None, None), a);
    assert p1 == Picks(Some(a), None);
    var p2 := Click(p1, b);
    assert p2 == Picks(Some(a), Some(b));
    var p3 := Click(p2, a);
    assert p3 == Picks(None, Some(b));
  }

  /** Which layer an edge is painted in. */
  datatype Layer = PathLayer | PassedLayer | PlainLayer

  /** What the sorting of edges depends on: the path flag and the run on display. */
  datatype View = View(drawing: bool, marking: bool, path: set<EdgeKey>, passed: set<EdgeKey>)

  /**
   * While a path is drawn, an edge of the path goes to the path layer, and
   * otherwise, when scanned edges are marked, a scanned edge goes to the
   * passed layer; every other edge is plain.
   */
  function LayerOf(v: View, e: Edge): Layer {
    if v.drawing && Key(e) in v.path then PathLayer
    else if v.drawing && v.marking && Key(e) in v.passed then PassedLayer
    else PlainLayer
  }

  /** The edges of `es` in layer `l`, in their order. */
  function InLayer(es: seq<Edge>, l: Layer, v: View): seq<Edge> {
    if |es| == 0 then []
    else
      var last := es[|es| - 1];
      InLayer(es[..|es| - 1], l, v) + (if LayerOf(v, last) == l then [last] else [])
  }

  lemma InLayerSnoc(es: seq<Edge>, i: nat, l: Layer, v: View)
    requires i < |es|
    ensures InLayer(es[..i + 1], l, v) ==
      InLayer(es[..i], l, v) + (if LayerOf(v, es[i]) == l then [es[i]] else [])
  {
    assert es[..i + 1][..i] == es[..i];
  }

  /** A non-empty sequence is its prefix followed by its last element. */
  lemma SplitLast(es: seq<Edge>)
    requires |es| > 0
    ensures es == es[..|es| - 1] + [es[|es| - 1]]
  {
  }

  /** An edge is in layer `l` of `es` exactly when it is an edge of `es` that belongs to `l`. */
  lemma {:induction false} InLayerMembers(es: seq<Edge>, l: Layer, v: View, e: Edge)
    ensures e in InLayer(es, l, v) <==> e in es && LayerOf(v, e) == l
  {
    if |es| > 0 {
      SplitLast(es);
      InLayerMembers(es[..|es| - 1], l, v, e);
    }
  }

  /** Appending an edge to one of three parts that split `init` splits `init + [x]`. */
  lemma SplitAppend(init: seq<Edge>, x: Edge, a: seq<Edge>, b: seq<Edge>, c: seq<Edge>,
                    a': seq<Edge>, b': seq<Edge>, c': seq<Edge>)
    requires multiset(a) + multiset(b) + multiset(c) == multiset(init)
    requires || (a' == a + [x] && b' == b && c' == c)
             || (a' == a && b' == b + [x] && c' == c)
             || (a' == a && b' == b && c' == c + [x])
    ensures multiset(a') + multiset(b') + multiset(c') == multiset(init + [x])
  {
  }

  /** The three layers split the edges: together they hold each edge as often as `es` does. */
  lemma {:induction false} LayersPartition(es: seq<Edge>, v: View)
    ensures multiset(InLayer(es, PathLayer, v)) + multiset(InLayer(es, PassedLayer, v))
          + multiset(InLayer(es, PlainLayer, v)) == multiset(es)
  {
    if |es| > 0 {
      var init, last := es[..|es| - 1], es[|es| - 1];
      SplitLast(es);
      LayersPartition(init, v);
      SplitAppend(init, last, InLayer(init, PathLayer, v), InLayer(init, PassedLayer, v),
                  InLayer(init, PlainLayer, v), InLayer(es, PathLayer, v),
                  InLayer(es, PassedLayer, v), InLayer(es, PlainLayer, v));
    }
  }

  /** The count check of `render_edges`: the layer sizes add up to the number of edges. */
  lemma LayerCountsSum(es: seq<Edge>, v: View)
    ensures |InLayer(es, PathLayer, v)| + |InLayer(es, PassedLayer, v)| + |InLayer(es, PlainLayer, v)| == |es|
  {
    LayersPartition(es, v);
    assert |multiset(es)| == |es|;
  }

  /** Path edges win over scanned ones, and nothing is marked passed unless marking is on. */
  lemma LayerPrecedence(v: View, e: Edge)
    ensures LayerOf(v, e) == PathLayer <==> v.drawing && Key(e) in v.path
    ensures LayerOf(v, e) == PassedLayer <==>
      v.drawing && v.marking && Key(e) !in v.path && Key(e) in v.passed
  {
  }

  /** When no path is drawn, every edge is plain. */
  lemma {:induction false} NotDrawingAllPlain(es: seq<Edge>, v: View)
    requires !v.drawing
    ensures InLayer(es, PlainLayer, v) == es
    ensures InLayer(es, PathLayer, v) == [] && InLayer(es, PassedLayer, v) == []
  {
    if |es| > 0 {
      SplitLast(es);
      NotDrawingAllPlain(es[..|es| - 1], v);
    }
  }

  /** `UIState`: the selection, the painted layers and whether a path is drawn. */
  class UIState {
    var startNode: Option<Node>
    var endNode: Option<Node>
    var selectedEdges: Option<seq<Edge>>
    var passedEdges: Option<seq<Edge>>
    var isDrawingPath: bool

    /** `UIState::default`: nothing picked, nothing painted, no path drawn. */
    constructor ()
      ensures startNode == None && endNode == None
      ensures selectedEdges == None && passedEdges == None && !isDrawingPath
    {
      startNode := None;
      endNode := None;
      selectedEdges := None;
      passedEdges := None;
      isDrawingPath := false;
    }

    function Selection(): Picks
      reads this
    {
      Picks(startNode, endNode)
    }

    /** `is_start_and_end_set`: both picks are there, so a path can be requested. */
    function IsStartAndEndSet(): (r: bool)
      reads this
      ensures r <==> Selection().start.Some? && Selection().end.Some?
      ensures r ==> Picked(Selection(), startNode.value.id) && Picked(Selection(), endNode.value.id)
    {
      startNode.Some? && endNode.Some?
    }
  }

  /** `Map`: the data on display, the UI state and the algorithm context. */
  class Map {
    /** `has_data()` of the data context. */
    var hasData: bool
    /** The graph's edges, in the order they are painted. */
    var edges: seq<Edge>
    /** The adjacency the searches run on. */
    var neighbors: Adjacency
    var state: UIState
    var algorithmCtx: AlgorithmContext

    /** `Map::new`: no data, a default state and a fresh algorithm context. */
    constructor ()
      ensures !hasData && edges == [] && neighbors == map[]
      ensures fresh(state) && fresh(algorithmCtx)
      ensures state.Selection() == Picks(None, None) && !state.isDrawingPath
      ensures state.selectedEdges == None && state.passedEdges == None
      ensures !algorithmCtx.isMarkingPassedEdges && algorithmCtx.algorithmType == HybridAStar
      ensures algorithmCtx.astarWeight == 1 && algorithmCtx.useManhattan
      ensures algorithmCtx.selectedEdges == {} && algorithmCtx.passedEdges == {} && algorithmCtx.totalCost == 0
      ensures algorithmCtx.currentRunArgs == None && algorithmCtx.computedRuns == map[]
      ensures algorithmCtx.Consistent(neighbors)
    {
      hasData := false;
      edges := [];
      neighbors := map[];
      state := new UIState();
      algorithmCtx := new AlgorithmContext();
    }

    /** `is_selected`: the start or the end pick has this id. */
    function IsSelected(nodeId: NodeId): (r: bool)
      reads this, state
      ensures r <==> Picked(state.Selection(), nodeId)
    {
      if state.startNode.Some? && state.startNode.value.id == nodeId then true
      else if state.endNode.Some? && state.endNode.value.id == nodeId then true
      else false
    }

    /** `select_node`: the click moves the selection as `Click` says and stops drawing the path. */
    method SelectNode(node: Node)
      modifies state`startNode, state`endNode, state`isDrawingPath
      ensures state.Selection() == Click(old(state.Selection()), node)
      ensures !state.isDrawingPath
    {
      state.isDrawingPath := false;
      match state.startNode {
        case None =>
          state.startNode := Some(node);
        case Some(s) =>
          if state.endNode.None? {
            if s.id == node.id {
              state.startNode := None;
            } else {
              state.endNode := Some(node);
            }
          } else {
            var e := state.endNode.value;
            if s.id == node.id {
              state.startNode := None;
            } else if e.id == node.id {
              state.endNode := None;
            } else {
              state.startNode := Some(node);
              state.endNode := None;
            }
          }
      }
    }

    /** What `render_edges` sorts the edges by. */
    function CurrentView(): View
      reads this, state`isDrawingPath, algorithmCtx`isMarkingPassedEdges,
        algorithmCtx`selectedEdges, algorithmCtx`passedEdges
    {
      View(state.isDrawingPath, algorithmCtx.isMarkingPassedEdges,
           algorithmCtx.selectedEdges, algorithmCtx.passedEdges)
    }

    /**
     * `render_edges`: without data nothing happens; otherwise every edge is
     * sorted into its layer, the path and passed layers are stored in the
     * state, and the plain edges are returned to be painted.
     */
    method RenderEdges() returns (plain: seq<Edge>)
      modifies state`selectedEdges, state`passedEdges
      ensures !hasData ==> plain == [] && unchanged(state)
      ensures hasData ==> && state.selectedEdges == Some(InLayer(edges, PathLayer, CurrentView()))
                          && state.passedEdges == Some(InLayer(edges, PassedLayer, CurrentView()))
                          && plain == InLayer(edges, PlainLayer, CurrentView())
    {
      if !hasData {
        return [];
      }
      var v := CurrentView();
      var selected: seq<Edge> := [];
      var passed: seq<Edge> := [];
      plain := [];
      for i := 0 to |edges|
        invariant selected == InLayer(edges[..i], PathLayer, v)
        invariant passed == InLayer(edges[..i], PassedLayer, v)
        invariant plain == InLayer(edges[..i], PlainLayer, v)
      {
        var edge := edges[i];
        InLayerSnoc(edges, i, PathLayer, v);
        InLayerSnoc(edges, i, PassedLayer, v);
        InLayerSnoc(edges, i, PlainLayer, v);
        if state.isDrawingPath && algorithmCtx.IsEdgeSelected(edge) {
          selected := selected + [edge];
        } else if state.isDrawingPath && algorithmCtx.isMarkingPassedEdges && algorithmCtx.IsEdgePassed(edge) {
          passed := passed + [edge];
        } else {
          plain := plain + [edge];
        }
      }
      assert edges[..|edges|] == edges;
      LayerCountsSum(edges, v);
      assert |plain| + |selected| + |passed| == |edges|;
      state.selectedEdges := Some(selected);
      state.passedEdges := Some(passed);
    }

    /**
     * The path request of `update`: when both ends are picked and their
     * arguments are not those on display, compute the path and draw it.
     * A failed search is reported and changes nothing.
     */
    method RequestPath(dist: Distance) returns (err: Option<SearchError>)
      requires algorithmCtx.Consistent(neighbors)
      modifies algorithmCtx`selectedEdges, algorithmCtx`passedEdges, algorithmCtx`totalCost,
        algorithmCtx`currentRunArgs, algorithmCtx`computedRuns, state`isDrawingPath
      ensures algorithmCtx.Consistent(neighbors)
      ensures err.Some? ==> unchanged(algorithmCtx) && unchanged(state)
      ensures !old(state.IsStartAndEndSet() && algorithmCtx.IsNewArgs(state.startNode.value, state.endNode.value)) ==>
        err == None && unchanged(algorithmCtx) && unchanged(state)
      ensures old(state.IsStartAndEndSet()) && err.None? ==>
        && algorithmCtx.currentRunArgs == Some(algorithmCtx.ArgsFor(state.startNode.value, state.endNode.value))
        && (old(algorithmCtx.IsNewArgs(state.startNode.value, state.endNode.value)) ==> state.isDrawingPath)
      ensures err.Some? ==> state.IsStartAndEndSet()
      ensures err == Some(Unreachable) ==> && state.IsStartAndEndSet()
                                           && !Reachable(neighbors, state.startNode.value.id, state.endNode.value.id)
    {
      if state.IsStartAndEndSet() && algorithmCtx.IsNewArgs(state.startNode.value, state.endNode.value) {
        err := algorithmCtx.ComputePath(state.startNode.value, state.endNode.value, neighbors, dist);
        if err.Some? {
          return;
        }
        state.isDrawingPath := true;
      } else {
        err := None;
      }
    }

    /**
     * Two clicks on the end pick while its path is on display, then the next
     * frame's path request: the first click drops the end, the second picks
     * it again, and the request does nothing because the run arguments are
     * not new; so the same pair stays picked with no path drawn until some
     * setting changes.
     */
    method ReselectEnd(dist: Distance) returns (err: Option<SearchError>)
      requires algorithmCtx.Consistent(neighbors) && state.IsStartAndEndSet()
      requires !SameNode(state.startNode.value, state.endNode.value)
      requires algorithmCtx.currentRunArgs == Some(algorithmCtx.ArgsFor(state.startNode.value, state.endNode.value))
      modifies state`startNode, state`endNode, state`isDrawingPath
      modifies algorithmCtx`selectedEdges, algorithmCtx`passedEdges, algorithmCtx`totalCost,
        algorithmCtx`currentRunArgs, algorithmCtx`computedRuns
      ensures err == None && state.Selection() == old(state.Selection()) && !state.isDrawingPath
      ensures unchanged(algorithmCtx)
    {
      var end := state.endNode.value;
      SelectNode(end);
      SelectNode(end);
      err := RequestPath(dist);
    }
  }

  /**
   * Once a path is requested, the edges painted in the path layer are hops
   * of a chain of distinct nodes from the start pick to the end pick.
   */
  lemma PathLayerFollowsChain(m: Map, es: seq<Edge>, e: Edge)
    requires m.algorithmCtx.Consistent(m.neighbors) && m.state.IsStartAndEndSet()
    requires m.algorithmCtx.currentRunArgs == Some(m.algorithmCtx.ArgsFor(m.state.startNode.value, m.state.endNode.value))
    requires e in InLayer(es, PathLayer, m.CurrentView())
    ensures exists hops :: && IsChain(m.neighbors, hops, m.state.startNode.value.id, m.state.endNode.value.id)
                           && Key(e) in ChainKeys(hops)
  {
    InLayerMembers(es, PathLayer, m.CurrentView(), e);
    ShownPathIsChain(m.algorithmCtx, m.neighbors);
  }
}
