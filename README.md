# Slicing floorplan

A model of `pa2.c`, a program that reads a slicing floorplan and writes three
streams. The floorplan is a binary tree. Each leaf is a module with a label, a
width and a height. Each inner node is a vertical (`V`) or horizontal (`H`) cut
line over a left and a right part.

The program:

- reads the tree in preorder, one line per node (`build_tree`);
- writes the tree in postorder, with each cut as its bare symbol (mode 1);
- computes every cut's bounding rectangle bottom-up and writes the tree in
  postorder with those rectangles (mode 2);
- seeds the root at (0, 0), gives every node its origin top-down and writes every
  module with its origin (`preorder_traversal`).

The model has two layers.

- **Values.** `SlicingTree`, `Builder`, `Dimensions` and `Placer` define the shape
  of a floorplan as a datatype. They also define what the program computes from
  that shape:
  - the preorder reader `Parse`, with its inverse `Serialize`;
  - the composed rectangles `Width`/`Height`;
  - the postorder streams `Postorder`;
  - the placement stream `Layout`.

  Lemmas prove the properties of these definitions: round trips, counts, order,
  containment and disjointness of the placed modules.
- **Heap.** `Nodes` has a class `Node` with the C struct's fields.
  - The passes update `width`, `height`, `xcoord` and `ycoord` in place.
  - Each method is proved against `NodeImage`, which captures the fields of a
    whole subtree as a value (`View()`).
  - `Nodes.Run` chains the passes as `main` does. It proves that the three
    streams are the ones the shape read from the input determines.
- **Examples.** `Scenarios` works through two five-line inputs, a lone module
  and the two failed reads.

Input lines are modelled as already-classified tokens:

- `CutToken(V|H)` is a line starting with `V` or `H`;
- `LeafToken(label, width, height)` is a line of the form `label(width,height)`;
- `BadToken` is any other line.

Output streams are sequences of record values, not text.

## Model

| member | source | states |
|---|---|---|
| SlicingTree.Max | pa2.c:17-19 | The result is at least each argument and equals one of them. |
| SlicingTree.LeafCountIsCutsPlusOne | pa2.c:51-62 | A tree with n cuts has n + 1 leaves. Every node is a leaf or a cut. The left-to-right frontier has one entry per leaf. |
| Builder.Serialize | pa2.c:51-62 | The preorder token stream of a tree: one token per node. |
| Builder.Parse | pa2.c:41-64 | A successful read ends exactly one token per node after its start, within the input. The line a `MalformedToken` error names lies at or after the start, within the input, and is a malformed line. |
| Builder.ParseScansTokens | pa2.c:41-64 | A successful read met no malformed line among the tokens it consumed. A read that fails on a malformed line fails on the first one after its start. A failed read is `IncompleteTree` (the input ended where a node was expected) exactly when no malformed line follows its start. |
| Builder.ParseSerialized | pa2.c:51-62 | Reading the serialization of any tree, whatever precedes or follows it, gives back that tree and consumes exactly its tokens. |
| Builder.ParsedIsSerialized | pa2.c:51-62 | Conversely, the tokens a successful read consumed are the serialization of the tree it returned. |
| Builder.ParseFailsOnlyWithoutTree | pa2.c:41-64 | A read fails only when no tree's serialization starts at that position. |
| Dimensions.Width | pa2.c:84-90 | Defines the width of a subtree's rectangle. A module keeps its own width. A V cut sums its children's widths. An H cut takes the larger of them. |
| Dimensions.Height | pa2.c:84-90 | Defines the height of a subtree's rectangle. A module keeps its own height. A V cut takes the larger of its children's heights. An H cut sums them. |
| Dimensions.NodeRecord | pa2.c:74-95 | Defines the record a node of the shape writes. In modes 1 and 2 a module writes its label and size. In mode 1 a cut writes its symbol. In mode 2 a cut writes its symbol with its composed rectangle. Other modes write nothing. |
| Dimensions.Postorder | pa2.c:66-97 | Defines the stream of one pass: the left subtree's records, then the right subtree's, then the node's own. |
| Dimensions.PostorderLength | pa2.c:66-97 | Modes 1 and 2 write exactly one record per node. Any other mode writes nothing. |
| Dimensions.PostorderIsNodewise | pa2.c:71-95 | The k-th record belongs to the k-th node in postorder (left, right, node). In mode 2 a cut's record carries its composed rectangle. |
| Dimensions.SkeletonOfResolved | pa2.c:74-95 | The mode-1 stream is the mode-2 stream with each cut's rectangle dropped. Leaf records are identical in both modes. |
| Dimensions.PostorderLeavesAreFrontier | pa2.c:71-76 | In both modes the leaf records appear in left-to-right order of the modules. |
| Dimensions.DimensionsNonNegative | pa2.c:84-90 | Modules with non-negative sizes give non-negative composed rectangles. |
| Placer.Layout | pa2.c:99-135 | Defines the placement stream from an origin. A module is written at the origin. Under an H cut the right child is placed at the origin and the left child is raised by the right child's height. Under a V cut the left child is placed at the origin and the right child is shifted by the left child's width. Left-subtree placements come before right-subtree ones. |
| Placer.LayoutFollowsFrontier | pa2.c:127-134 | The placement stream has one record per leaf and none per cut. The leaves appear left to right with their own labels and sizes. |
| Placer.PlacementsMatchPostorder | pa2.c:127-134 | Without origins, the placement stream equals the leaf records of either postorder stream. |
| Placer.LayoutInsideBox | pa2.c:104-128 | Every placed module lies inside the root's composed rectangle at the seeded origin. |
| Placer.LayoutReachesRight | pa2.c:104-128 | Some placed module touches the right edge of that rectangle, so the composed width is tight. |
| Placer.LayoutReachesTop | pa2.c:104-128 | Some placed module touches the top edge, so the composed height is tight. |
| Placer.LayoutDisjoint | pa2.c:104-128 | No two placed modules overlap. |
| NodeImage.Resolve | pa2.c:66-97 | Defines the stored fields after the mode-2 pass. The children are resolved first, then the node composes its rectangle from theirs. |
| NodeImage.Composed | pa2.c:83-92 | Defines one cut taking the rectangle composed from its children's stored ones (V: widths summed, heights maxed; H: widths maxed, heights summed). Nothing else changes. |
| NodeImage.NodeOutput | pa2.c:74-95 | Defines the record a node writes from its stored fields in the given mode. |
| NodeImage.PlacedAt | pa2.c:99-128 | Defines the stored fields after the placement pass from a given origin. A cut gives its children their origins from its own origin and their stored rectangles, then each child does the same. |
| NodeImage.ChildrenPlaced | pa2.c:104-125 | Defines one cut giving its two children their origins by the H/V rule. |
| NodeImage.Emitted | pa2.c:127-134 | Defines the placement records the pass writes: one per leaf, left to right, from the leaf's stored fields. |
| NodeImage.ResolveSpec | pa2.c:66-97 | The mode-2 pass keeps labels, module sizes, cut symbols and every origin. It resolves every cut (V: widths summed, heights maxed; H: widths maxed, heights summed). The root ends up with the rectangle the shape determines. |
| NodeImage.ResolveFixpoint | pa2.c:83-92 | The mode-2 pass leaves a tree unchanged exactly when every cut is already resolved. |
| NodeImage.ResolveIdempotent | pa2.c:83-92 | Running the mode-2 pass twice gives the same fields as running it once. |
| NodeImage.ComposedSpec | pa2.c:83-92 | Composing one cut keeps the shape and the origins. It leaves the cut resolved exactly when its children are resolved. |
| NodeImage.OutputAfterPass | pa2.c:74-95 | After a pass in a given mode, the record a node writes from its stored fields is the one its shape determines. |
| NodeImage.ResolvedDims | pa2.c:84-90 | A resolved subtree stores the rectangle its shape determines. |
| NodeImage.PlacedSpec | pa2.c:99-135 | The placement pass keeps the shape and every stored rectangle. It puts the start node at the given origin and leaves every cut well placed (H: right child at the parent's origin, left child raised by the right child's height; V: left child at the origin, right child shifted by the left child's width). |
| NodeImage.PlacedFixpoint | pa2.c:104-128 | Started from a node's own origin, the placement pass leaves the tree unchanged exactly when it is already well placed. |
| NodeImage.PlacedEmitsLayout | pa2.c:127-134 | On a resolved tree, the placement pass writes exactly the layout the shape determines. |
| NodeImage.ChildrenPlacedSpec | pa2.c:104-125 | Placing a cut's children keeps the shape, every rectangle and the cut's own origin. |
| NodeImage.PlacedStep | pa2.c:104-128 | The pass from a cut is the step that places its children, followed by the pass from each child at its new origin. |
| NodeImage.PlacedAtIgnoresOrigin | pa2.c:99-128 | The pass from a node never reads that node's own stored origin, only the one it is given. |
| Nodes.Node.LeafNode | pa2.c:21-30 | A fresh module node with the given label and size, and no children. |
| Nodes.Node.CutlineNode | pa2.c:32-39 | A fresh cut node with the given symbol over two disjoint subtrees. |
| Nodes.Node.BuildTree | pa2.c:41-64 | Builds from fresh nodes exactly the tree `Parse` reads, and ends where `Parse` ends. It fails exactly where `Parse` fails, with the same error. |
| Nodes.Node.PostorderTraversal | pa2.c:66-97 | Writes `Postorder` of the subtree's shape. In mode 2 it leaves the subtree resolved and changes nothing else. In other modes it changes nothing. |
| Nodes.Node.Visit | pa2.c:74-95 | A leaf writes its record in modes 1 and 2. A cut writes its symbol in mode 1. In mode 2 a cut takes the rectangle composed from its children and writes it. |
| Nodes.Node.PreorderTraversal | pa2.c:99-135 | Places the subtree from the node's current origin, as the placement pass defines it. Writes the placed leaves left to right. |
| Nodes.Node.PlaceChildren | pa2.c:104-125 | Gives a cut's two children their origins by the H/V rule. No other field changes. |
| Nodes.Node.SetOrigin | pa2.c:189 | Seeds a node's origin. |
| Nodes.Run | pa2.c:159-190 | Returns the read error, or returns the mode-1 and mode-2 postorder streams and the layout from (0, 0) of the tree the input describes. |
| Scenarios.SampleRead | pa2.c:41-64 | The input `V`, `1(2,3)`, `H`, `2(4,1)`, `3(5,2)` reads as the expected tree. |
| Scenarios.SampleStreams | pa2.c:66-135 | On that tree: the H cut is 5x3 and the root 7x3, and module 2 is placed at (2,2) above module 3 at (2,0). |
| Scenarios.StackedRead | pa2.c:41-64 | The input `V`, `H`, `1(2,3)`, `2(4,1)`, `3(5,2)` reads as V over H(1, 2) and module 3. |
| Scenarios.StackedStreams | pa2.c:66-135 | On that tree: the H cut is 4x4 and the root record reads `V(9,4)`. Module 1 is placed at (0,1) above module 2 at (0,0), and module 3 at (4,0). |
| Scenarios.LoneModule | pa2.c:41-64 | A single module line is the whole floorplan, placed at the origin. |
| Scenarios.FailedReads | pa2.c:43-45 | A cut missing its second subtree fails as incomplete. A malformed line fails at its index. |

## Left out

- `main`'s argument check, file opening and closing, and error messages (pa2.c:144-196) are not modelled. `Nodes.Run` takes the classified input lines and returns the three streams as values.
- Reading and splitting lines (`fgets`, `strcspn`, `sscanf`) is not modelled. Lines arrive already classified as tokens.
- A line that is neither a cut nor a module is a `BadToken`. The read then fails with `MalformedToken` at that line. In C, the fields `sscanf` did not match stay uninitialized. For `1(abc,3)`, the label is 1 and the width and height are unset.
- An input that ends where a node is expected makes the read fail with `IncompleteTree`, and `Nodes.Run` returns no stream at all. In C, `build_tree` returns a NULL child, which the mode-1 pass skips (pa2.c:67) because a cut writes only its own symbol (pa2.c:80). So the whole skeleton stream is written and its file closed (pa2.c:169-170). Only then does the mode-2 pass crash, reading a missing child's width at pa2.c:85 (V cut) or pa2.c:89 (H cut). For `V`, `1(2,3)`, C writes `1(2,3)` and `V` to the first file and then crashes. The model does not capture this partial skeleton output.
- An empty input gives C a NULL root. Both postorder passes write empty streams, and the program crashes at pa2.c:189. The model returns `IncompleteTree` instead.
- C composes any cut whose symbol is not `V` as a horizontal cut. The model has only `V` and `H`, because only lines starting with those letters become cuts.
- `fprintf` formatting (pa2.c:76, 80, 94, 133) is not modelled. Records are values.
- `free_tree` and `malloc` are not modelled.
- The width, height and origin that `malloc` leaves uninitialized in a fresh cut node, and the origin of a fresh module node, are unconstrained in the model. The passes never read them before writing them.
- Nodes.Node.BuildTree: allocates a cut node after both of its subtrees, passing them to the constructor, because the links are constant fields in the model. C allocates the cut node first and assigns `left` and `right` afterwards. The resulting tree is the same.
- Nodes.Node.PlaceChildren: the C chained assignments (pa2.c:108, 118) are written as separate assignments. Only the resulting field values are stated, not the order of the writes.
- C `int` overflow in the sums at pa2.c:85, 90, 111 and 121 is not modelled. Integers are unbounded.
