/**
 Worked inputs: two five-line floorplans with the three streams each produces,
 a lone module, and the two ways a read can fail.
 */
module Scenarios {
  import opened SlicingTree
  import opened Builder
  import opened Dimensions
  import opened Placer

  /** V, then module 1 (2x3), then H over module 2 (4x1) and module 3 (5x2). */
  function SampleTree(): Tree
  {
    Cut(Vertical, Leaf(1, 2, 3), Cut(Horizontal, Leaf(2, 4, 1), Leaf(3, 5, 2)))
  }

  /** The five input lines of the sample read back as the sample tree. */
  lemma SampleRead()
    ensures Parse([CutToken(Vertical), LeafToken(1, 2, 3), CutToken(Horizontal),
                   LeafToken(2, 4, 1), LeafToken(3, 5, 2)], 0) == Ok((SampleTree(), 5))
  {
  }

  /** The streams of the sample: the horizontal cut is 5x3 and the whole
      floorplan 7x3, and module 2 sits above module 3, to the right of
      module 1. */
  lemma SampleStreams()
    ensures Postorder(SampleTree(), 1) ==
              [LeafRecord(1, 2, 3), LeafRecord(2, 4, 1), LeafRecord(3, 5, 2),
               SymbolRecord(Horizontal), SymbolRecord(Vertical)]
    ensures Postorder(SampleTree(), 2) ==
              [LeafRecord(1, 2, 3), LeafRecord(2, 4, 1), LeafRecord(3, 5, 2),
               CutRecord(Horizontal, 5, 3), CutRecord(Vertical, 7, 3)]
    ensures Layout(SampleTree(), 0, 0) ==
              [Placement(1, 2, 3, 0, 0), Placement(2, 4, 1, 2, 2), Placement(3, 5, 2, 2, 0)]
  {
  }

  /** V, then H over module 1 (2x3) and module 2 (4x1), then module 3 (5x2). */
  function StackedTree(): Tree
  {
    Cut(Vertical, Cut(Horizontal, Leaf(1, 2, 3), Leaf(2, 4, 1)), Leaf(3, 5, 2))
  }

  /** The five input lines of the stacked sample read back as that tree. */
  lemma StackedRead()
    ensures Parse([CutToken(Vertical), CutToken(Horizontal), LeafToken(1, 2, 3),
                   LeafToken(2, 4, 1), LeafToken(3, 5, 2)], 0) == Ok((StackedTree(), 5))
  {
  }

  /** The streams of the stacked sample: the horizontal cut is 4x4 and the root
      record reads V(9,4); module 1 sits above module 2, and module 3 to the
      right of both. */
  lemma StackedStreams()
    ensures Postorder(StackedTree(), 1) ==
              [LeafRecord(1, 2, 3), LeafRecord(2, 4, 1), SymbolRecord(Horizontal),
               LeafRecord(3, 5, 2), SymbolRecord(Vertical)]
    ensures Postorder(StackedTree(), 2) ==
              [LeafRecord(1, 2, 3), LeafRecord(2, 4, 1), CutRecord(Horizontal, 4, 4),
               LeafRecord(3, 5, 2), CutRecord(Vertical, 9, 4)]
    ensures Layout(StackedTree(), 0, 0) ==
              [Placement(1, 2, 3, 0, 1), Placement(2, 4, 1, 0, 0), Placement(3, 5, 2, 4, 0)]
  {
  }

  /** A lone module is the whole floorplan, placed at the origin. */
  lemma LoneModule(id: int, w: int, h: int)
    ensures Parse([LeafToken(id, w, h)], 0) == Ok((Leaf(id, w, h), 1))
    ensures Postorder(Leaf(id, w, h), 1) == Postorder(Leaf(id, w, h), 2) == [LeafRecord(id, w, h)]
    ensures Layout(Leaf(id, w, h), 0, 0) == [Placement(id, w, h, 0, 0)]
  {
  }

  /** A cut whose second subtree is missing, and a malformed second line. */
  lemma FailedReads()
    ensures Parse([CutToken(Horizontal), LeafToken(1, 2, 3)], 0) == Err(IncompleteTree)
    ensures Parse([CutToken(Vertical), BadToken, LeafToken(1, 2, 3)], 0) == Err(MalformedToken(1))
  {
  }
}
