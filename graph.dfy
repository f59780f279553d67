/**
 * The graph the engine searches: directed edges between nodes, an adjacency
 * map from a node id to its outgoing edges, and the walks, chains and edge
 * sets the engine's results are stated in.
 *
 * An edge's identity is the pair of its endpoint ids; its length plays no
 * part. A reconstructed path edge (length 0) therefore matches the graph
 * edge with the same endpoints, and a `HashSet<Edge>` is modelled as a set
 * of EdgeKeys.
 */
module Graph {
  import opened Nodes

  datatype Edge = Edge(from: Node, to: Node, length: nat)

  /** What `Hash`/`Eq` on an edge look at. */
  datatype EdgeKey = EdgeKey(from: NodeId, to: NodeId)

  function Key(e: Edge): EdgeKey {
    EdgeKey(e.from.id, e.to.id)
  }

  /** `HashMap<Node, Vec<Edge>>`, keyed by id since nodes are. */
  type Adjacency = map<NodeId, seq<Edge>>

  /** The keys of a list of edges, as a `HashSet<Edge>` built from it holds them. */
  function SeqKeys(es: seq<Edge>): (ks: set<EdgeKey>)
    ensures forall i :: 0 <= i < |es| ==> Key(es[i]) in ks
    ensures forall k :: k in ks ==> exists i :: 0 <= i < |es| && Key(es[i]) == k
  {
    set e | e in es :: Key(e)
  }

  /** The keys of every outgoing edge of the nodes in `xs`. */
  ghost function OutgoingKeys(adj: Adjacency, xs: set<NodeId>): set<EdgeKey> {
    set n, e | n in xs && n in adj && e in adj[n] :: Key(e)
  }

  lemma OutgoingKeysAdd(adj: Adjacency, xs: set<NodeId>, n: NodeId)
    requires n in adj
    ensures OutgoingKeys(adj, xs + {n}) == OutgoingKeys(adj, xs) + SeqKeys(adj[n])
  {
  }

  lemma SeqKeysEmpty(es: seq<Edge>)
    ensures SeqKeys(es[..0]) == {}
  {
  }

  lemma SeqKeysSnoc(es: seq<Edge>, i: nat)
    requires i < |es|
    ensures SeqKeys(es[..i + 1]) == SeqKeys(es[..i]) + {Key(es[i])}
  {
    assert es[..i + 1] == es[..i] + [es[i]];
  }

  /** Every node that some edge of the map points at. */
  ghost function Targets(adj: Adjacency): set<NodeId> {
    set n, e | n in adj && e in adj[n] :: e.to.id
  }

  /** The node that the i-th edge of a walk from `s` leaves from. */
  function Source(s: NodeId, p: seq<Edge>, i: nat): NodeId
    requires i <= |p|
  {
    if i == 0 then s else p[i - 1].to.id
  }

  /**
   * `p` is a walk from `s` to `t`: each edge is listed in the adjacency of
   * the node the walk has reached, and the walk moves on to its `to` node
   * (the engine never looks at an edge's `from`).
   */
  ghost predicate IsWalk(adj: Adjacency, s: NodeId, p: seq<Edge>, t: NodeId) {
    && (if |p| == 0 then s == t else p[|p| - 1].to.id == t)
    && forall i {:trigger Source(s, p, i)} :: 0 <= i < |p| ==> Source(s, p, i) in adj && p[i] in adj[Source(s, p, i)]
  }

  function WalkCost(p: seq<Edge>): nat {
    if |p| == 0 then 0 else WalkCost(p[..|p| - 1]) + p[|p| - 1].length
  }

  lemma WalkExtend(adj: Adjacency, s: NodeId, p: seq<Edge>, t: NodeId, e: Edge)
    requires IsWalk(adj, s, p, t) && t in adj && e in adj[t]
    ensures IsWalk(adj, s, p + [e], e.to.id)
    ensures WalkCost(p + [e]) == WalkCost(p) + e.length
  {
    assert (p + [e])[..|p|] == p;
    forall i | 0 <= i < |p| + 1
      ensures Source(s, p + [e], i) in adj && (p + [e])[i] in adj[Source(s, p + [e], i)]
    {
      if i < |p| {
        assert Source(s, p + [e], i) == Source(s, p, i);
      }
    }
  }

  lemma WalkSplitLast(adj: Adjacency, s: NodeId, p: seq<Edge>, t: NodeId)
    requires IsWalk(adj, s, p, t) && |p| > 0
    ensures Source(s, p, |p| - 1) in adj && p[|p| - 1] in adj[Source(s, p, |p| - 1)]
    ensures IsWalk(adj, s, p[..|p| - 1], Source(s, p, |p| - 1))
    ensures WalkCost(p) == WalkCost(p[..|p| - 1]) + p[|p| - 1].length
  {
    var q := p[..|p| - 1];
    forall i | 0 <= i < |q|
      ensures Source(s, q, i) in adj && q[i] in adj[Source(s, q, i)]
    {
      assert Source(s, q, i) == Source(s, p, i);
    }
  }

  ghost predicate Reachable(adj: Adjacency, s: NodeId, t: NodeId) {
    exists p :: IsWalk(adj, s, p, t)
  }

  /** Some walk from `s` to `t` costs exactly `c`. */
  ghost predicate HasWalkOfCost(adj: Adjacency, s: NodeId, t: NodeId, c: nat) {
    exists p :: IsWalk(adj, s, p, t) && WalkCost(p) == c
  }

  /** No walk from `s` to `t` costs less than `c`. */
  ghost predicate IsLowerBound(adj: Adjacency, s: NodeId, t: NodeId, c: nat) {
    forall p :: IsWalk(adj, s, p, t) ==> c <= WalkCost(p)
  }

  /** Some edge listed for `u` leads to `v`. */
  ghost predicate HasArc(adj: Adjacency, u: NodeId, v: NodeId) {
    u in adj && exists e :: e in adj[u] && e.to.id == v
  }

  /** A path as a list of distinct node ids from `s` to `t`, each hop an arc of the graph. */
  ghost predicate IsChain(adj: Adjacency, hops: seq<NodeId>, s: NodeId, t: NodeId) {
    && |hops| > 0 && hops[0] == s && hops[|hops| - 1] == t
    && (forall i, j :: 0 <= i < j < |hops| ==> hops[i] != hops[j])
    && (forall i :: 0 <= i < |hops| - 1 ==> HasArc(adj, hops[i], hops[i + 1]))
  }

  /** The walk `p` goes through the nodes `hops` in order: its i-th edge is listed for hops[i] and leads to hops[i + 1]. */
  ghost predicate WalkAlong(adj: Adjacency, hops: seq<NodeId>, p: seq<Edge>) {
    && |hops| > 0 && |p| == |hops| - 1
    && forall i :: 0 <= i < |p| ==> hops[i] in adj && p[i] in adj[hops[i]] && p[i].to.id == hops[i + 1]
  }

  /** An edge out of the last hop extends a walk along the hops by one more hop. */
  lemma WalkAlongSnoc(adj: Adjacency, hops: seq<NodeId>, q: seq<Edge>, v: NodeId, e: Edge)
    requires WalkAlong(adj, hops, q)
    requires hops[|hops| - 1] in adj && e in adj[hops[|hops| - 1]] && e.to.id == v
    ensures WalkAlong(adj, hops + [v], q + [e]) && WalkCost(q + [e]) == WalkCost(q) + e.length
  {
    assert (q + [e])[..|q|] == q;
  }

  /** A walk along `hops` is a walk from the first hop to the last. */
  lemma WalkAlongIsWalk(adj: Adjacency, hops: seq<NodeId>, p: seq<Edge>)
    requires WalkAlong(adj, hops, p)
    ensures IsWalk(adj, hops[0], p, hops[|hops| - 1])
  {
    forall i | 0 <= i < |p| ensures Source(hops[0], p, i) == hops[i] {
      if i > 0 {
        assert p[i - 1].to.id == hops[i];
      }
    }
  }

  /** The key of the i-th hop. */
  function Hop(hops: seq<NodeId>, i: nat): EdgeKey
    requires i < |hops| - 1
  {
    EdgeKey(hops[i], hops[i + 1])
  }

  /** The edge keys of consecutive hops. */
  function ChainKeys(hops: seq<NodeId>): set<EdgeKey> {
    set i | 0 <= i < |hops| - 1 :: Hop(hops, i)
  }

  lemma ChainKeysPrepend(u: NodeId, hops: seq<NodeId>)
    requires |hops| > 0
    ensures ChainKeys([u] + hops) == {EdgeKey(u, hops[0])} + ChainKeys(hops)
  {
    var h := [u] + hops;
    forall k | k in ChainKeys(h) ensures k in {EdgeKey(u, hops[0])} + ChainKeys(hops) {
      var i :| 0 <= i < |h| - 1 && k == Hop(h, i);
      if i > 0 {
        assert k == Hop(hops, i - 1);
      }
    }
    forall k | k in {EdgeKey(u, hops[0])} + ChainKeys(hops) ensures k in ChainKeys(h) {
      if k == EdgeKey(u, hops[0]) {
        assert k == Hop(h, 0);
      } else {
        var i :| 0 <= i < |hops| - 1 && k == Hop(hops, i);
        assert k == Hop(h, i + 1);
      }
    }
  }

  /** A chain of distinct nodes has exactly one edge key per hop. */
  lemma {:induction false} ChainKeysCount(hops: seq<NodeId>)
    requires |hops| > 0
    requires forall i, j :: 0 <= i < j < |hops| ==> hops[i] != hops[j]
    ensures |ChainKeys(hops)| == |hops| - 1
  {
    if |hops| > 1 {
      var rest := hops[1..];
      ChainKeysCount(rest);
      ChainKeysPrepend(hops[0], rest);
      assert [hops[0]] + rest == hops;
      assert EdgeKey(hops[0], hops[1]) !in ChainKeys(rest);
    } else {
      assert ChainKeys(hops) == {};
    }
  }
}
