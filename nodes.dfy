/**
 The heap nodes of the program: one object per input line, linked by left and
 right pointers. The links, the label, the kind and the cut symbol never change
 once a node is built, so they are constant fields; the rectangle (width,
 height) and the origin (xcoord, ycoord) are the fields the two passes update in
 place. Every method is specified through View(), the image of the mutable
 fields of the whole subtree, and so through the functions of NodeImage,
 Dimensions and Placer.
 */
module Nodes {
  import opened SlicingTree
  import opened Builder
  import opened Dimensions
  import opened Placer
  import opened NodeImage

  class Node {
    const isLeaf: bool
    const id: int
    const cutline: Orientation
    const left: Node?
    const right: Node?
    ghost const Repr: set<Node>
    var width: int
    var height: int
    var xcoord: int
    var ycoord: int

    /** A leaf has no children; a cut has two, each owning a footprint of its
        own that excludes this node and the other child's. */
    ghost predicate Valid()
      decreases Repr
    {
      this in Repr &&
      if isLeaf then left == null && right == null
      else
        left != null && right != null &&
        left in Repr && right in Repr &&
        left.Repr <= Repr && right.Repr <= Repr &&
        this !in left.Repr && this !in right.Repr &&
        left.Repr !! right.Repr &&
        left.Valid() && right.Valid()
    }

    /** The fields of every node of this subtree. */
    ghost function View(): Image
      reads Repr
      requires Valid()
      decreases Repr
    {
      if isLeaf then LeafImage(id, width, height, xcoord, ycoord)
      else CutImage(cutline, width, height, xcoord, ycoord, left.View(), right.View())
    }

    /** A module node; its origin is left unset. */
    constructor LeafNode(id: int, width: int, height: int)
      ensures Valid() && Repr == {this}
      ensures Shape(View()) == Leaf(id, width, height)
    {
      this.isLeaf := true;
      this.id := id;
      this.width := width;
      this.height := height;
      this.left := null;
      this.right := null;
      this.Repr := {this};
    }

    /** A cut node over two built subtrees; its rectangle and origin are left
        unset. */
    constructor CutlineNode(cutline: Orientation, left: Node, right: Node)
      requires left.Valid() && right.Valid() && left.Repr !! right.Repr
      ensures Valid() && Repr == {this} + left.Repr + right.Repr
      ensures this.cutline == cutline && this.left == left && this.right == right
      ensures Shape(View()) == Cut(cutline, Shape(left.View()), Shape(right.View()))
    {
      this.isLeaf := false;
      this.cutline := cutline;
      this.left := left;
      this.right := right;
      this.Repr := {this} + left.Repr + right.Repr;
    }

    /** Reads one tree from tokens[pos..] in preorder: a cut token becomes a cut
        node whose left and then right subtree are read from the tokens that
        follow; a module token becomes a leaf. Builds exactly the tree Parse
        reads, from fresh nodes, and fails exactly where Parse fails. */
    static method BuildTree(tokens: seq<Token>, pos: nat) returns (res: Result<(Node, nat)>)
      requires pos <= |tokens|
      ensures res.Err? ==> Parse(tokens, pos) == Err(res.error)
      ensures res.Ok? ==>
                res.value.0.Valid() && fresh(res.value.0.Repr) &&
                Parse(tokens, pos) == Ok((Shape(res.value.0.View()), res.value.1))
      decreases |tokens| - pos
    {
      if pos == |tokens| {
        return Err(IncompleteTree);
      }
      var token := tokens[pos];
      if token.CutToken? {
        var l := BuildTree(tokens, pos + 1);
        if l.Err? {
          return Err(l.error);
        }
        var r := BuildTree(tokens, l.value.1);
        if r.Err? {
          return Err(r.error);
        }
        var node := new Node.CutlineNode(token.cut, l.value.0, r.value.0);
        res := Ok((node, r.value.1));
      } else if token.LeafToken? {
        var node := new Node.LeafNode(token.id, token.width, token.height);
        res := Ok((node, pos + 1));
      } else {
        res := Err(MalformedToken(pos));
      }
    }

    /** Visits the left subtree, the right subtree, then this node. The records
        written are the postorder stream of the shape; mode 2 leaves every
        rectangle resolved and changes nothing else, other modes change
        nothing. */
    method PostorderTraversal(mode: int) returns (out: seq<Record>)
      requires Valid()
      modifies Repr`width, Repr`height
      ensures View() == if mode == 2 then Resolve(old(View())) else old(View())
      ensures out == Postorder(Shape(old(View())), mode)
      decreases Repr
    {
      ghost var before := View();
      var fromLeft: seq<Record> := [];
      var fromRight: seq<Record> := [];
      if !isLeaf {
        fromLeft := left.PostorderTraversal(mode);
        fromRight := right.PostorderTraversal(mode);
      }
      var here := Visit(mode);
      OutputAfterPass(before, mode);
      out := fromLeft + fromRight + here;
    }

    /** The postorder visit of this node once its children are done: a leaf
        writes its record in modes 1 and 2; a cut writes its symbol in mode 1,
        and in mode 2 composes its rectangle from its children's and writes
        it. */
    method Visit(mode: int) returns (rec: seq<Record>)
      requires Valid()
      modifies this`width, this`height
      ensures View() == if mode == 2 then Composed(old(View())) else old(View())
      ensures rec == NodeOutput(View(), mode)
    {
      if isLeaf && (mode == 1 || mode == 2) {
        rec := [LeafRecord(id, width, height)];
      } else {
        rec := [];
        if mode == 1 {
          rec := [SymbolRecord(cutline)];
        }
        if mode == 2 {
          if cutline == Vertical {
            width := left.width + right.width;
            height := Max(left.height, right.height);
          } else {
            width := Max(left.width, right.width);
            height := left.height + right.height;
          }
          rec := [CutRecord(cutline, width, height)];
        }
      }
    }

    /** Visits this node, then the left and the right subtree; each leaf writes
        its record once reached. The subtree ends up placed from this node's
        origin and the records written are its leaves' placements. */
    method PreorderTraversal() returns (out: seq<Placement>)
      requires Valid()
      modifies Repr`xcoord, Repr`ycoord
      ensures View() == PlacedAt(old(View()), old(xcoord), old(ycoord))
      ensures out == Emitted(View())
      decreases Repr
    {
      var fromLeft: seq<Placement> := [];
      var fromRight: seq<Placement> := [];
      if !isLeaf {
        ghost var a := View();
        PlaceChildren();
        PlacedStep(a.cut, a.width, a.height, a.x, a.y, a.left, a.right);
        fromLeft := left.PreorderTraversal();
        fromRight := right.PreorderTraversal();
      }
      out := fromLeft + fromRight;
      if isLeaf {
        out := out + [Placement(id, width, height, xcoord, ycoord)];
      }
    }

    /** A cut gives its children their origins: under a horizontal cut the right
        child takes the cut's origin and the left child sits the right child's
        height above it; under a vertical cut the left child takes the cut's
        origin and the right child sits the left child's width beside it. */
    method PlaceChildren()
      requires Valid() && !isLeaf
      modifies left`xcoord, left`ycoord, right`xcoord, right`ycoord
      ensures View() == ChildrenPlaced(old(View()))
    {
      if cutline == Horizontal {
        left.xcoord := xcoord;
        right.xcoord := xcoord;
        right.ycoord := ycoord;
        left.ycoord := ycoord + right.height;
      } else {
        left.ycoord := ycoord;
        right.ycoord := ycoord;
        left.xcoord := xcoord;
        right.xcoord := xcoord + left.width;
      }
    }

    /** Moves this node's origin to (x, y). */
    method SetOrigin(x: int, y: int)
      modifies this`xcoord, this`ycoord
      ensures xcoord == x && ycoord == y
    {
      xcoord, ycoord := x, y;
    }
  }

  /** The three output streams: the skeleton postorder, the resolved postorder
      and the placements. */
  datatype Streams = Streams(skeleton: seq<Record>, resolved: seq<Record>, placements: seq<Placement>)

  /** Builds the tree, writes the skeleton stream, resolves and writes the
      dimensions, seeds the root at (0, 0) and writes the placements. The
      streams are those the shape read from the tokens determines; a read
      that fails yields its error. */
  method Run(tokens: seq<Token>) returns (res: Result<Streams>)
    ensures Parse(tokens, 0).Err? ==> res == Err(Parse(tokens, 0).error)
    ensures Parse(tokens, 0).Ok? ==>
              var t := Parse(tokens, 0).value.0;
              res == Ok(Streams(Postorder(t, 1), Postorder(t, 2), Layout(t, 0, 0)))
  {
    var built := Node.BuildTree(tokens, 0);
    if built.Err? {
      return Err(built.error);
    }
    var root := built.value.0;
    ghost var built0 := root.View();
    var skeleton := root.PostorderTraversal(1);
    var resolved := root.PostorderTraversal(2);
    ghost var resolved0 := root.View();
    root.SetOrigin(0, 0);
    var placements := root.PreorderTraversal();
    ResolveSpec(built0);
    PlacedAtIgnoresOrigin(resolved0, 0, 0, 0, 0);
    PlacedEmitsLayout(resolved0, 0, 0);
    res := Ok(Streams(skeleton, resolved, placements));
  }
}
