/**
 A slicing floorplan is a binary tree. Each cut node splits its rectangle with a
 vertical or a horizontal cut line into a left and a right part; each leaf is a
 module of fixed width and height. This module holds the tree and the records
 the three output streams are made of, and the counting facts about trees.
 */
module SlicingTree {

  /** The cut-line symbol of a cut node, 'V' or 'H'. */
  datatype Orientation = Vertical | Horizontal

  /** The shape of a floorplan: what the input describes, before any pass runs. */
  datatype Tree =
    | Leaf(id: int, width: int, height: int)
    | Cut(cut: Orientation, left: Tree, right: Tree)

  /** One line of a postorder output stream. */
  datatype Record =
    | LeafRecord(id: int, width: int, height: int)     // id(width,height)
    | SymbolRecord(cut: Orientation)                       // the bare cut symbol
    | CutRecord(cut: Orientation, width: int, height: int) // symbol(width,height)

  /** One line of the placement stream: id((width,height)(x,y)). */
  datatype Placement = Placement(id: int, width: int, height: int, x: int, y: int)

  /** The larger of two integers. */
  function Max(a: int, b: int): (m: int)
    ensures m >= a && m >= b
    ensures m == a || m == b
  {
    if a > b then a else b
  }

  /** Number of nodes, leaves and cuts alike. */
  function Size(t: Tree): nat
  {
    match t
    case Leaf(_, _, _) => 1
    case Cut(_, l, r) => 1 + Size(l) + Size(r)
  }

  function LeafCount(t: Tree): nat
  {
    match t
    case Leaf(_, _, _) => 1
    case Cut(_, l, r) => LeafCount(l) + LeafCount(r)
  }

  function CutCount(t: Tree): nat
  {
    match t
    case Leaf(_, _, _) => 0
    case Cut(_, l, r) => 1 + CutCount(l) + CutCount(r)
  }

  /** The modules of the tree from left to right, as the records that describe them. */
  function Frontier(t: Tree): (fs: seq<Record>)
    ensures forall i :: 0 <= i < |fs| ==> fs[i].LeafRecord?
  {
    match t
    case Leaf(id, w, h) => [LeafRecord(id, w, h)]
    case Cut(_, l, r) => Frontier(l) + Frontier(r)
  }

  /** Every module has a non-negative width and height. */
  predicate NonNegative(t: Tree)
  {
    match t
    case Leaf(_, w, h) => w >= 0 && h >= 0
    case Cut(_, l, r) => NonNegative(l) && NonNegative(r)
  }

  /** A tree with n cuts has n + 1 leaves, every node is one or the other, and
      the frontier lists every leaf once. */
  lemma {:induction false} LeafCountIsCutsPlusOne(t: Tree)
    ensures LeafCount(t) == CutCount(t) + 1
    ensures Size(t) == LeafCount(t) + CutCount(t)
    ensures |Frontier(t)| == LeafCount(t)
  {
    match t
    case Leaf(_, _, _) =>
    case Cut(_, l, r) =>
      LeafCountIsCutsPlusOne(l);
      LeafCountIsCutsPlusOne(r);
  }
}
