/**
 * Graph nodes (src/models/node.rs). A node carries a string id and a
 * position; equality, hashing and ordering look at the id only, so every
 * map and set of the engine is keyed by the id.
 */
module Nodes {

  type NodeId = string

  /** A 2-D position (egui's Pos2). Nothing in the model computes with it. */
  datatype Pos2 = Pos2(x: real, y: real)

  datatype Node = Node(id: NodeId, position: Pos2)

  datatype Ordering = Less | Equal | Greater

  /** `PartialEq for Node`: two nodes are the same node when their ids agree. */
  predicate SameNode(a: Node, b: Node) {
    a.id == b.id
  }

  /** `Hash for Node` feeds only the id to the hasher: this is what is hashed. */
  function HashInput(n: Node): NodeId {
    n.id
  }

  /**
   * `str::cmp`: lexicographic order. Rust compares UTF-8 bytes, which orders
   * strings exactly as comparing their code points does.
   */
  function CompareIds(a: NodeId, b: NodeId): Ordering
    decreases |a|
  {
    if a == [] && b == [] then Equal
    else if a == [] then Less
    else if b == [] then Greater
    else if a[0] < b[0] then Less
    else if b[0] < a[0] then Greater
    else CompareIds(a[1..], b[1..])
  }

  /** `Ord for Node`. */
  function Compare(a: Node, b: Node): Ordering {
    CompareIds(a.id, b.id)
  }

  /** The order is consistent with equality: `cmp` says Equal exactly when the ids are equal. */
  lemma {:induction false} CompareIdsEqualIff(a: NodeId, b: NodeId)
    ensures CompareIds(a, b) == Equal <==> a == b
    decreases |a|
  {
    if a != [] && b != [] && a[0] == b[0] {
      CompareIdsEqualIff(a[1..], b[1..]);
      assert a == [a[0]] + a[1..] && b == [b[0]] + b[1..];
    }
  }

  /** Swapping the arguments swaps Less and Greater. */
  lemma {:induction false} CompareIdsAntisymmetric(a: NodeId, b: NodeId)
    ensures CompareIds(a, b) == Less <==> CompareIds(b, a) == Greater
    decreases |a|
  {
    if a != [] && b != [] && a[0] == b[0] {
      CompareIdsAntisymmetric(a[1..], b[1..]);
    }
  }

  /** Less is transitive, so `cmp` is a total order on ids. */
  lemma {:induction false} CompareIdsTransitive(a: NodeId, b: NodeId, c: NodeId)
    requires CompareIds(a, b) == Less && CompareIds(b, c) == Less
    ensures CompareIds(a, c) == Less
    decreases |a|
  {
    if a != [] && b != [] && c != [] && a[0] == b[0] && b[0] == c[0] {
      CompareIdsTransitive(a[1..], b[1..], c[1..]);
    }
  }

  /** Node equality is reflexive, symmetric and transitive (`impl Eq for Node`). */
  lemma SameNodeIsEquivalence(a: Node, b: Node, c: Node)
    ensures SameNode(a, a)
    ensures SameNode(a, b) ==> SameNode(b, a)
    ensures SameNode(a, b) && SameNode(b, c) ==> SameNode(a, c)
  {
  }

  /** Two nodes with one id are the same node wherever they are placed. */
  lemma SameNodeIgnoresPosition(id: NodeId, p: Pos2, q: Pos2)
    ensures SameNode(Node(id, p), Node(id, q))
    ensures Compare(Node(id, p), Node(id, q)) == Equal
  {
    CompareIdsEqualIff(id, id);
  }

  /** Equal nodes hash equally, and `cmp` returns Equal exactly when `eq` holds. */
  lemma EqualityAgreement(a: Node, b: Node)
    ensures SameNode(a, b) ==> HashInput(a) == HashInput(b)
    ensures Compare(a, b) == Equal <==> SameNode(a, b)
  {
    CompareIdsEqualIff(a.id, b.id);
  }
}
