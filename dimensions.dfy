/**
 The dimension pass: the bounding rectangle of every cut is composed bottom-up
 from its two children, and a postorder walk writes one record per node. Mode 1
 writes the skeleton (a cut as its bare symbol), mode 2 the resolved dimensions.
 */
module Dimensions {
  import opened SlicingTree

  /** Width of the rectangle a subtree occupies: a vertical cut puts its parts
      side by side, a horizontal cut stacks them. */
  function Width(t: Tree): int
  {
    match t
    case Leaf(_, w, _) => w
    case Cut(Vertical, l, r) => Width(l) + Width(r)
    case Cut(Horizontal, l, r) => Max(Width(l), Width(r))
  }

  /** Height of the rectangle a subtree occupies. */
  function Height(t: Tree): int
  {
    match t
    case Leaf(_, _, h) => h
    case Cut(Vertical, l, r) => Max(Height(l), Height(r))
    case Cut(Horizontal, l, r) => Height(l) + Height(r)
  }

  /** The record a node contributes to the stream of the given mode, if any. */
  function NodeRecord(t: Tree, mode: int): seq<Record>
  {
    match t
    case Leaf(id, w, h) => if mode == 1 || mode == 2 then [LeafRecord(id, w, h)] else []
    case Cut(o, _, _) =>
      if mode == 1 then [SymbolRecord(o)]
      else if mode == 2 then [CutRecord(o, Width(t), Height(t))]
      else []
  }

  /** The postorder stream: left subtree, right subtree, then the node itself. */
  function Postorder(t: Tree, mode: int): seq<Record>
  {
    match t
    case Leaf(_, _, _) => NodeRecord(t, mode)
    case Cut(_, l, r) => Postorder(l, mode) + Postorder(r, mode) + NodeRecord(t, mode)
  }

  /** The subtrees of a tree in postorder, the tree itself last. */
  function PostorderNodes(t: Tree): (ns: seq<Tree>)
    ensures |ns| == Size(t) && ns[|ns| - 1] == t
  {
    match t
    case Leaf(_, _, _) => [t]
    case Cut(_, l, r) => PostorderNodes(l) + PostorderNodes(r) + [t]
  }

  /** The leaf records of a stream, in stream order. */
  function LeafRecords(rs: seq<Record>): (ls: seq<Record>)
    ensures |ls| <= |rs|
    ensures forall i :: 0 <= i < |ls| ==> ls[i].LeafRecord?
  {
    if rs == [] then []
    else (if rs[0].LeafRecord? then [rs[0]] else []) + LeafRecords(rs[1..])
  }

  /** What mode 1 writes in place of a record of mode 2: the cut symbol without
      its dimensions; leaf records are the same. */
  function Skeleton(rs: seq<Record>): (ss: seq<Record>)
    ensures |ss| == |rs|
  {
    if rs == [] then []
    else [if rs[0].CutRecord? then SymbolRecord(rs[0].cut) else rs[0]] + Skeleton(rs[1..])
  }

  lemma {:induction false} LeafRecordsAppend(a: seq<Record>, b: seq<Record>)
    ensures LeafRecords(a + b) == LeafRecords(a) + LeafRecords(b)
    decreases |a|
  {
    if a == [] {
      assert a + b == b;
    } else {
      assert (a + b)[1..] == a[1..] + b;
      LeafRecordsAppend(a[1..], b);
    }
  }

  lemma {:induction false} SkeletonAppend(a: seq<Record>, b: seq<Record>)
    ensures Skeleton(a + b) == Skeleton(a) + Skeleton(b)
    decreases |a|
  {
    if a == [] {
      assert a + b == b;
    } else {
      assert (a + b)[1..] == a[1..] + b;
      SkeletonAppend(a[1..], b);
    }
  }

  /** Modes 1 and 2 write one record per node and nothing for any other mode. */
  lemma {:induction false} PostorderLength(t: Tree, mode: int)
    ensures |Postorder(t, mode)| == if mode == 1 || mode == 2 then Size(t) else 0
  {
    match t
    case Leaf(_, _, _) =>
    case Cut(_, l, r) =>
      PostorderLength(l, mode);
      PostorderLength(r, mode);
  }

  /** The k-th record of a stream belongs to the k-th node in postorder; in
      mode 2 a cut's record carries the composed dimensions of its subtree. */
  lemma {:induction false} PostorderIsNodewise(t: Tree, mode: int, k: nat)
    requires mode == 1 || mode == 2
    requires k < Size(t)
    ensures |Postorder(t, mode)| == Size(t)
    ensures [Postorder(t, mode)[k]] == NodeRecord(PostorderNodes(t)[k], mode)
  {
    PostorderLength(t, mode);
    match t
    case Leaf(_, _, _) =>
    case Cut(_, l, r) =>
      PostorderLength(l, mode);
      PostorderLength(r, mode);
      var nl, nr := Size(l), Size(r);
      if k < nl {
        PostorderIsNodewise(l, mode, k);
      } else if k < nl + nr {
        PostorderIsNodewise(r, mode, k - nl);
      }
  }

  /** The skeleton stream is the resolved stream with each cut's dimensions
      dropped: same length, same order, identical leaf records. */
  lemma {:induction false} SkeletonOfResolved(t: Tree)
    ensures Postorder(t, 1) == Skeleton(Postorder(t, 2))
  {
    match t
    case Leaf(_, _, _) =>
    case Cut(o, l, r) =>
      SkeletonOfResolved(l);
      SkeletonOfResolved(r);
      SkeletonAppend(Postorder(l, 2) + Postorder(r, 2), NodeRecord(t, 2));
      SkeletonAppend(Postorder(l, 2), Postorder(r, 2));
  }

  /** In both modes the leaf records appear in left-to-right order of the modules. */
  lemma {:induction false} PostorderLeavesAreFrontier(t: Tree, mode: int)
    requires mode == 1 || mode == 2
    ensures LeafRecords(Postorder(t, mode)) == Frontier(t)
  {
    match t
    case Leaf(_, _, _) =>
    case Cut(_, l, r) =>
      PostorderLeavesAreFrontier(l, mode);
      PostorderLeavesAreFrontier(r, mode);
      LeafRecordsAppend(Postorder(l, mode) + Postorder(r, mode), NodeRecord(t, mode));
      LeafRecordsAppend(Postorder(l, mode), Postorder(r, mode));
  }

  /** With non-negative modules every composed rectangle is non-negative too. */
  lemma {:induction false} DimensionsNonNegative(t: Tree)
    requires NonNegative(t)
    ensures Width(t) >= 0 && Height(t) >= 0
  {
    match t
    case Leaf(_, _, _) =>
    case Cut(_, l, r) =>
      DimensionsNonNegative(l);
      DimensionsNonNegative(r);
  }
}
