/**
 The placement pass: starting from the origin of the whole floorplan, every cut
 hands its two children their origins, and every module is written with its
 dimensions and final origin. A horizontal cut puts the right child at the
 parent's origin and the left child above it, offset by the right child's
 height; a vertical cut puts the left child at the parent's origin and the right
 child beside it, offset by the left child's width.
 */
module Placer {
  import opened SlicingTree
  import opened Dimensions

  /** The placement stream of a tree whose origin is (x, y). */
  function Layout(t: Tree, x: int, y: int): seq<Placement>
  {
    match t
    case Leaf(id, w, h) => [Placement(id, w, h, x, y)]
    case Cut(Horizontal, l, r) => Layout(l, x, y + Height(r)) + Layout(r, x, y)
    case Cut(Vertical, l, r) => Layout(l, x, y) + Layout(r, x + Width(l), y)
  }

  /** The placement records with their origins dropped. */
  function Unplaced(ps: seq<Placement>): (rs: seq<Record>)
    ensures |rs| == |ps|
  {
    if ps == [] then []
    else [LeafRecord(ps[0].id, ps[0].width, ps[0].height)] + Unplaced(ps[1..])
  }

  /** The module p lies inside the rectangle of width w and height h at (x, y). */
  predicate Inside(p: Placement, x: int, y: int, w: int, h: int)
  {
    x <= p.x && p.x + p.width <= x + w && y <= p.y && p.y + p.height <= y + h
  }

  /** The modules p and q do not overlap. */
  predicate Apart(p: Placement, q: Placement)
  {
    p.x + p.width <= q.x || q.x + q.width <= p.x ||
    p.y + p.height <= q.y || q.y + q.height <= p.y
  }

  lemma {:induction false} UnplacedAppend(a: seq<Placement>, b: seq<Placement>)
    ensures Unplaced(a + b) == Unplaced(a) + Unplaced(b)
    decreases |a|
  {
    if a == [] {
      assert a + b == b;
    } else {
      assert (a + b)[1..] == a[1..] + b;
      UnplacedAppend(a[1..], b);
    }
  }

  /** One placement per module and none per cut, the modules in left-to-right
      order with their own labels and dimensions: the placement stream lists
      the same leaves as either postorder stream. */
  lemma {:induction false} LayoutFollowsFrontier(t: Tree, x: int, y: int)
    ensures Unplaced(Layout(t, x, y)) == Frontier(t)
    ensures |Layout(t, x, y)| == LeafCount(t)
  {
    LeafCountIsCutsPlusOne(t);
    match t
    case Leaf(_, _, _) =>
    case Cut(o, l, r) =>
      var (lx, ly, rx, ry) :=
        if o == Horizontal then (x, y + Height(r), x, y) else (x, y, x + Width(l), y);
      assert Layout(t, x, y) == Layout(l, lx, ly) + Layout(r, rx, ry);
      LayoutFollowsFrontier(l, lx, ly);
      LayoutFollowsFrontier(r, rx, ry);
      UnplacedAppend(Layout(l, lx, ly), Layout(r, rx, ry));
  }

  /** Dropping the origins from the placement stream gives the leaf records of
      either postorder stream, in the same order. */
  lemma PlacementsMatchPostorder(t: Tree, x: int, y: int, mode: int)
    requires mode == 1 || mode == 2
    ensures Unplaced(Layout(t, x, y)) == LeafRecords(Postorder(t, mode))
  {
    LayoutFollowsFrontier(t, x, y);
    PostorderLeavesAreFrontier(t, mode);
  }

  /** Every module lies inside the bounding rectangle the dimension pass
      computes for the whole tree. */
  lemma {:induction false} LayoutInsideBox(t: Tree, x: int, y: int)
    requires NonNegative(t)
    ensures forall p :: p in Layout(t, x, y) ==> Inside(p, x, y, Width(t), Height(t))
  {
    match t
    case Leaf(_, _, _) =>
    case Cut(o, l, r) =>
      DimensionsNonNegative(l);
      DimensionsNonNegative(r);
      if o == Horizontal {
        LayoutInsideBox(l, x, y + Height(r));
        LayoutInsideBox(r, x, y);
      } else {
        LayoutInsideBox(l, x, y);
        LayoutInsideBox(r, x + Width(l), y);
      }
  }

  /** Some module reaches the right edge of the bounding box. */
  lemma {:induction false} LayoutReachesRight(t: Tree, x: int, y: int)
    ensures exists i :: 0 <= i < |Layout(t, x, y)| &&
              Layout(t, x, y)[i].x + Layout(t, x, y)[i].width == x + Width(t)
  {
    match t
    case Leaf(_, _, _) =>
      assert Layout(t, x, y)[0].x + Layout(t, x, y)[0].width == x + Width(t);
    case Cut(Horizontal, l, r) =>
      var ls, rs := Layout(l, x, y + Height(r)), Layout(r, x, y);
      assert Layout(t, x, y) == ls + rs;
      LayoutReachesRight(l, x, y + Height(r));
      LayoutReachesRight(r, x, y);
      var il :| 0 <= il < |ls| && ls[il].x + ls[il].width == x + Width(l);
      var ir :| 0 <= ir < |rs| && rs[ir].x + rs[ir].width == x + Width(r);
      if Width(l) >= Width(r) {
        assert (ls + rs)[il] == ls[il];
      } else {
        assert (ls + rs)[|ls| + ir] == rs[ir];
      }
    case Cut(Vertical, l, r) =>
      var ls, rs := Layout(l, x, y), Layout(r, x + Width(l), y);
      assert Layout(t, x, y) == ls + rs;
      LayoutReachesRight(r, x + Width(l), y);
      var ir :| 0 <= ir < |rs| && rs[ir].x + rs[ir].width == x + Width(l) + Width(r);
      assert (ls + rs)[|ls| + ir] == rs[ir];
  }

  /** Some module reaches the top edge of the bounding box. */
  lemma {:induction false} LayoutReachesTop(t: Tree, x: int, y: int)
    ensures exists j :: 0 <= j < |Layout(t, x, y)| &&
              Layout(t, x, y)[j].y + Layout(t, x, y)[j].height == y + Height(t)
  {
    match t
    case Leaf(_, _, _) =>
      assert Layout(t, x, y)[0].y + Layout(t, x, y)[0].height == y + Height(t);
    case Cut(Horizontal, l, r) =>
      var ls, rs := Layout(l, x, y + Height(r)), Layout(r, x, y);
      assert Layout(t, x, y) == ls + rs;
      LayoutReachesTop(l, x, y + Height(r));
      var jl :| 0 <= jl < |ls| && ls[jl].y + ls[jl].height == y + Height(r) + Height(l);
      assert (ls + rs)[jl] == ls[jl];
    case Cut(Vertical, l, r) =>
      var ls, rs := Layout(l, x, y), Layout(r, x + Width(l), y);
      assert Layout(t, x, y) == ls + rs;
      LayoutReachesTop(l, x, y);
      LayoutReachesTop(r, x + Width(l), y);
      var jl :| 0 <= jl < |ls| && ls[jl].y + ls[jl].height == y + Height(l);
      var jr :| 0 <= jr < |rs| && rs[jr].y + rs[jr].height == y + Height(r);
      if Height(l) >= Height(r) {
        assert (ls + rs)[jl] == ls[jl];
      } else {
        assert (ls + rs)[|ls| + jr] == rs[jr];
      }
  }


  /** No two modules overlap. */
  lemma {:induction false} LayoutDisjoint(t: Tree, x: int, y: int)
    requires NonNegative(t)
    ensures forall i, j :: 0 <= i < j < |Layout(t, x, y)| ==>
              Apart(Layout(t, x, y)[i], Layout(t, x, y)[j])
  {
    match t
    case Leaf(_, _, _) =>
    case Cut(o, l, r) =>
      var (lx, ly, rx, ry) :=
        if o == Horizontal then (x, y + Height(r), x, y) else (x, y, x + Width(l), y);
      var ls, rs := Layout(l, lx, ly), Layout(r, rx, ry);
      assert Layout(t, x, y) == ls + rs;
      LayoutDisjoint(l, lx, ly);
      LayoutDisjoint(r, rx, ry);
      LayoutInsideBox(l, lx, ly);
      LayoutInsideBox(r, rx, ry);
      forall i, j | 0 <= i < j < |ls + rs|
        ensures Apart((ls + rs)[i], (ls + rs)[j])
      {
        if j < |ls| {
          assert (ls + rs)[i] == ls[i] && (ls + rs)[j] == ls[j];
        } else if |ls| <= i {
          assert (ls + rs)[i] == rs[i - |ls|] && (ls + rs)[j] == rs[j - |ls|];
        } else {
          assert ls[i] in ls && rs[j - |ls|] in rs;
        }
      }
  }
}
