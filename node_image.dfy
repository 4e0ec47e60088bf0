/**
 The fields of every node of a built tree at one moment, as a value. The
 dimension pass and the placement pass update these fields in place; here their
 effect is stated as functions from the image before a pass to the image after
 it, and related to the dimensions and the layout that the shape determines.
 */
module NodeImage {
  import opened SlicingTree
  import opened Dimensions
  import opened Placer

  /** A node with its stored rectangle (width, height) and origin (x, y). For a
      cut the rectangle is meaningful once the dimension pass has run; for every
      node the origin is meaningful once the placement pass has reached it. */
  datatype Image =
    | LeafImage(id: int, width: int, height: int, x: int, y: int)
    | CutImage(cut: Orientation, width: int, height: int, x: int, y: int, left: Image, right: Image)

  /** What the input described: labels, module sizes and cut symbols. */
  function Shape(a: Image): Tree
  {
    match a
    case LeafImage(id, w, h, _, _) => Leaf(id, w, h)
    case CutImage(o, _, _, _, _, l, r) => Cut(o, Shape(l), Shape(r))
  }

  /** The stored rectangle of every node, in preorder. */
  function DimsOf(a: Image): seq<(int, int)>
  {
    match a
    case LeafImage(_, w, h, _, _) => [(w, h)]
    case CutImage(_, w, h, _, _, l, r) => [(w, h)] + DimsOf(l) + DimsOf(r)
  }

  /** The stored origin of every node, in preorder. */
  function OriginsOf(a: Image): seq<(int, int)>
  {
    match a
    case LeafImage(_, _, _, x, y) => [(x, y)]
    case CutImage(_, _, _, x, y, l, r) => [(x, y)] + OriginsOf(l) + OriginsOf(r)
  }

  /** The same node with its origin moved to (x, y). */
  function MovedTo(a: Image, x: int, y: int): Image
  {
    match a
    case LeafImage(id, w, h, _, _) => LeafImage(id, w, h, x, y)
    case CutImage(o, w, h, _, _, l, r) => CutImage(o, w, h, x, y, l, r)
  }

  /** The image after the mode-2 postorder pass: children first, then every cut
      takes the rectangle composed from its children's new rectangles. */
  function Resolve(a: Image): Image
  {
    match a
    case LeafImage(_, _, _, _, _) => a
    case CutImage(o, w, h, x, y, l, r) => Composed(CutImage(o, w, h, x, y, Resolve(l), Resolve(r)))
  }

  /** One cut takes the rectangle composed from its children's stored ones. */
  function Composed(a: Image): Image
  {
    match a
    case LeafImage(_, _, _, _, _) => a
    case CutImage(o, _, _, x, y, l, r) =>
      if o == Vertical then CutImage(o, l.width + r.width, Max(l.height, r.height), x, y, l, r)
      else CutImage(o, Max(l.width, r.width), l.height + r.height, x, y, l, r)
  }

  /** The record one node writes in the given mode, from its stored fields. */
  function NodeOutput(a: Image, mode: int): seq<Record>
  {
    match a
    case LeafImage(id, w, h, _, _) => if mode == 1 || mode == 2 then [LeafRecord(id, w, h)] else []
    case CutImage(o, w, h, _, _, _, _) =>
      if mode == 1 then [SymbolRecord(o)]
      else if mode == 2 then [CutRecord(o, w, h)]
      else []
  }

  /** Every vertical cut is as wide as its children together and as high as the
      higher one; every horizontal cut is as wide as the wider child and as high
      as its children together. */
  predicate IsResolved(a: Image)
  {
    match a
    case LeafImage(_, _, _, _, _) => true
    case CutImage(o, w, h, _, _, l, r) =>
      IsResolved(l) && IsResolved(r) &&
      if o == Vertical then w == l.width + r.width && h == Max(l.height, r.height)
      else w == Max(l.width, r.width) && h == l.height + r.height
  }

  /** The image after the preorder placement pass from a node whose origin is
      (x, y): each cut gives its children their origins from its own origin and
      their stored rectangles, then the children do the same. */
  function PlacedAt(a: Image, x: int, y: int): Image
  {
    match a
    case LeafImage(id, w, h, _, _) => LeafImage(id, w, h, x, y)
    case CutImage(Horizontal, w, h, _, _, l, r) =>
      CutImage(Horizontal, w, h, x, y, PlacedAt(l, x, y + r.height), PlacedAt(r, x, y))
    case CutImage(Vertical, w, h, _, _, l, r) =>
      CutImage(Vertical, w, h, x, y, PlacedAt(l, x, y), PlacedAt(r, x + l.width, y))
  }

  /** One cut gives its two children their origins from its own origin and
      their stored rectangles; nothing else changes. */
  function ChildrenPlaced(a: Image): Image
  {
    match a
    case LeafImage(_, _, _, _, _) => a
    case CutImage(Horizontal, w, h, x, y, l, r) =>
      CutImage(Horizontal, w, h, x, y, MovedTo(l, x, y + r.height), MovedTo(r, x, y))
    case CutImage(Vertical, w, h, x, y, l, r) =>
      CutImage(Vertical, w, h, x, y, MovedTo(l, x, y), MovedTo(r, x + l.width, y))
  }

  /** Under a horizontal cut both children share the parent's x, the right child
      has the parent's y and the left child sits the right child's height above
      it; under a vertical cut both share the parent's y, the left child has the
      parent's x and the right child sits the left child's width beside it. */
  predicate WellPlaced(a: Image)
  {
    match a
    case LeafImage(_, _, _, _, _) => true
    case CutImage(o, _, _, x, y, l, r) =>
      WellPlaced(l) && WellPlaced(r) &&
      if o == Horizontal then l.x == x && r.x == x && r.y == y && l.y == y + r.height
      else l.y == y && r.y == y && l.x == x && r.x == x + l.width
  }

  /** The placement records the preorder pass writes: one per leaf, left to
      right, with the leaf's stored rectangle and origin. */
  function Emitted(a: Image): seq<Placement>
  {
    match a
    case LeafImage(id, w, h, x, y) => [Placement(id, w, h, x, y)]
    case CutImage(_, _, _, _, _, l, r) => Emitted(l) + Emitted(r)
  }

  /** The dimension pass keeps the shape and every origin, leaves every module's
      rectangle alone, resolves every cut, and the root's rectangle is the one
      the shape determines. */
  lemma {:induction false} ResolveSpec(a: Image)
    ensures Shape(Resolve(a)) == Shape(a)
    ensures OriginsOf(Resolve(a)) == OriginsOf(a)
    ensures IsResolved(Resolve(a))
    ensures Resolve(a).width == Width(Shape(a)) && Resolve(a).height == Height(Shape(a))
  {
    match a
    case LeafImage(_, _, _, _, _) =>
    case CutImage(_, _, _, _, _, l, r) =>
      ResolveSpec(l);
      ResolveSpec(r);
  }

  /** One composing step keeps the shape and every origin; it resolves a cut
      exactly when the cut's children are already resolved. */
  lemma ComposedSpec(a: Image)
    requires a.CutImage?
    ensures Shape(Composed(a)) == Shape(a) && OriginsOf(Composed(a)) == OriginsOf(a)
    ensures IsResolved(Composed(a)) <==> IsResolved(a.left) && IsResolved(a.right)
  {
  }

  /** After a pass in the given mode, the record a node writes from its
      stored fields is the one its shape determines. */
  lemma OutputAfterPass(a: Image, mode: int)
    ensures NodeOutput(if mode == 2 then Resolve(a) else a, mode) == NodeRecord(Shape(a), mode)
  {
    ResolveSpec(a);
  }

  /** A resolved image stores the rectangles the shape determines. */
  lemma {:induction false} ResolvedDims(a: Image)
    requires IsResolved(a)
    ensures a.width == Width(Shape(a)) && a.height == Height(Shape(a))
  {
    match a
    case LeafImage(_, _, _, _, _) =>
    case CutImage(_, _, _, _, _, l, r) =>
      ResolvedDims(l);
      ResolvedDims(r);
  }

  /** The images the dimension pass leaves unchanged are exactly the resolved ones. */
  lemma {:induction false} ResolveFixpoint(a: Image)
    ensures Resolve(a) == a <==> IsResolved(a)
  {
    ResolveSpec(a);
    match a
    case LeafImage(_, _, _, _, _) =>
    case CutImage(_, _, _, _, _, l, r) =>
      ResolveFixpoint(l);
      ResolveFixpoint(r);
  }

  /** Running the dimension pass twice gives the same fields as running it once. */
  lemma ResolveIdempotent(a: Image)
    ensures Resolve(Resolve(a)) == Resolve(a)
  {
    ResolveSpec(a);
    ResolveFixpoint(Resolve(a));
  }

  /** The placement pass keeps the shape and every stored rectangle, puts the
      node it starts from at the given origin and leaves every cut well placed. */
  lemma {:induction false} PlacedSpec(a: Image, x: int, y: int)
    ensures Shape(PlacedAt(a, x, y)) == Shape(a)
    ensures DimsOf(PlacedAt(a, x, y)) == DimsOf(a)
    ensures PlacedAt(a, x, y).x == x && PlacedAt(a, x, y).y == y
    ensures PlacedAt(a, x, y).width == a.width && PlacedAt(a, x, y).height == a.height
    ensures WellPlaced(PlacedAt(a, x, y))
    ensures IsResolved(a) ==> IsResolved(PlacedAt(a, x, y))
  {
    match a
    case LeafImage(_, _, _, _, _) =>
    case CutImage(Horizontal, _, _, _, _, l, r) =>
      PlacedSpec(l, x, y + r.height);
      PlacedSpec(r, x, y);
    case CutImage(Vertical, _, _, _, _, l, r) =>
      PlacedSpec(l, x, y);
      PlacedSpec(r, x + l.width, y);
  }

  /** The images the placement pass leaves unchanged when started from their
      own origin are exactly the well-placed ones. */
  lemma {:induction false} PlacedFixpoint(a: Image)
    ensures PlacedAt(a, a.x, a.y) == a <==> WellPlaced(a)
  {
    PlacedSpec(a, a.x, a.y);
    match a
    case LeafImage(_, _, _, _, _) =>
    case CutImage(_, _, _, _, _, l, r) =>
      PlacedFixpoint(l);
      PlacedFixpoint(r);
  }

  /** On a resolved image, the placement pass writes exactly the layout that
      the shape determines for the given origin. */
  lemma {:induction false} PlacedEmitsLayout(a: Image, x: int, y: int)
    requires IsResolved(a)
    ensures Emitted(PlacedAt(a, x, y)) == Layout(Shape(a), x, y)
  {
    match a
    case LeafImage(_, _, _, _, _) =>
    case CutImage(Horizontal, _, _, _, _, l, r) =>
      ResolvedDims(r);
      PlacedEmitsLayout(l, x, y + r.height);
      PlacedEmitsLayout(r, x, y);
    case CutImage(Vertical, _, _, _, _, l, r) =>
      ResolvedDims(l);
      PlacedEmitsLayout(l, x, y);
      PlacedEmitsLayout(r, x + l.width, y);
  }

  /** One placing step keeps the shape, every stored rectangle and the cut's
      own origin. */
  lemma ChildrenPlacedSpec(a: Image)
    ensures Shape(ChildrenPlaced(a)) == Shape(a) && DimsOf(ChildrenPlaced(a)) == DimsOf(a)
    ensures ChildrenPlaced(a).x == a.x && ChildrenPlaced(a).y == a.y
  {
    match a
    case LeafImage(_, _, _, _, _) =>
    case CutImage(_, _, _, _, _, _, _) =>
  }

  /** The placement pass from a cut is one placing step for its children
      followed by the placement pass from each child at its new origin. */
  lemma PlacedStep(o: Orientation, w: int, h: int, x: int, y: int, l: Image, r: Image)
    ensures var c := ChildrenPlaced(CutImage(o, w, h, x, y, l, r));
            PlacedAt(CutImage(o, w, h, x, y, l, r), x, y) ==
            CutImage(o, w, h, x, y, PlacedAt(c.left, c.left.x, c.left.y), PlacedAt(c.right, c.right.x, c.right.y))
  {
  }

  /** The placement pass from a node does not read the node's own stored origin. */
  lemma PlacedAtIgnoresOrigin(a: Image, x: int, y: int, x0: int, y0: int)
    ensures PlacedAt(MovedTo(a, x0, y0), x, y) == PlacedAt(a, x, y)
  {
    match a
    case LeafImage(_, _, _, _, _) =>
    case CutImage(_, _, _, _, _, _, _) =>
  }
}
