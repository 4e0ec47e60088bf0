/**
 The tree builder: a recursive-descent reader of a floorplan written in preorder,
 one token per input line. A cut symbol is followed by its left subtree and then
 its right subtree; any other line is a module.
 */
module Builder {
  import opened SlicingTree

  /** One input line, already classified: a line starting with 'V' or 'H', a
      line of the form id(width,height), or a line that is neither. */
  datatype Token =
    | CutToken(cut: Orientation)
    | LeafToken(id: int, width: int, height: int)
    | BadToken

  datatype ParseError =
    | MalformedToken(at: nat)  // the line at this index is not a module
    | IncompleteTree           // the input ended where a node was expected

  datatype Result<T> = Ok(value: T) | Err(error: ParseError)

  /** The preorder token stream that describes a tree. */
  function Serialize(t: Tree): (ts: seq<Token>)
    ensures |ts| == Size(t)
  {
    match t
    case Leaf(id, w, h) => [LeafToken(id, w, h)]
    case Cut(o, l, r) => [CutToken(o)] + Serialize(l) + Serialize(r)
  }

  /** Reads one tree from tokens[pos..] and returns it with the position just
      after the last token it consumed; the tokens after that are not read. */
  function Parse(tokens: seq<Token>, pos: nat): (r: Result<(Tree, nat)>)
    requires pos <= |tokens|
    ensures r.Ok? ==> r.value.1 == pos + Size(r.value.0) <= |tokens|
    ensures r.Err? && r.error.MalformedToken? ==>
              pos <= r.error.at < |tokens| && tokens[r.error.at].BadToken?
    decreases |tokens| - pos
  {
    if pos == |tokens| then Err(IncompleteTree)
    else
      match tokens[pos]
      case BadToken => Err(MalformedToken(pos))
      case LeafToken(id, w, h) => Ok((Leaf(id, w, h), pos + 1))
      case CutToken(o) =>
        match Parse(tokens, pos + 1)
        case Err(e) => Err(e)
        case Ok((l, mid)) =>
          match Parse(tokens, mid)
          case Err(e) => Err(e)
          case Ok((r, next)) => Ok((Cut(o, l, r), next))
  }

  /** A successful read met no malformed line; a read that stops at a
      malformed line stops at the first one; a failed read runs out of input
      exactly when no malformed line follows its start. */
  lemma {:induction false} ParseScansTokens(tokens: seq<Token>, pos: nat)
    requires pos <= |tokens|
    ensures Parse(tokens, pos).Ok? ==>
              forall i :: pos <= i < Parse(tokens, pos).value.1 ==> !tokens[i].BadToken?
    ensures Parse(tokens, pos).Err? && Parse(tokens, pos).error.MalformedToken? ==>
              forall i :: pos <= i < Parse(tokens, pos).error.at ==> !tokens[i].BadToken?
    ensures Parse(tokens, pos).Err? ==>
              (Parse(tokens, pos).error == IncompleteTree <==>
               forall i :: pos <= i < |tokens| ==> !tokens[i].BadToken?)
    decreases |tokens| - pos
  {
    if pos < |tokens| && tokens[pos].CutToken? {
      ParseScansTokens(tokens, pos + 1);
      if Parse(tokens, pos + 1).Ok? {
        ParseScansTokens(tokens, Parse(tokens, pos + 1).value.1);
      }
    }
  }

  /** Reading the serialization of a tree, wherever it stands and whatever
      follows it, gives back that tree and consumes exactly its tokens. */
  lemma {:induction false} ParseSerialized(prefix: seq<Token>, t: Tree, rest: seq<Token>)
    ensures Parse(prefix + Serialize(t) + rest, |prefix|) == Ok((t, |prefix| + |Serialize(t)|))
    decreases t
  {
    var tokens := prefix + Serialize(t) + rest;
    assert tokens[|prefix|] == Serialize(t)[0];
    match t
    case Leaf(_, _, _) =>
    case Cut(o, l, r) =>
      var sl, sr := Serialize(l), Serialize(r);
      assert tokens == (prefix + [CutToken(o)]) + sl + (sr + rest);
      assert tokens == (prefix + [CutToken(o)] + sl) + sr + rest;
      ParseSerialized(prefix + [CutToken(o)], l, sr + rest);
      ParseSerialized(prefix + [CutToken(o)] + sl, r, rest);
      ParseCut(tokens, |prefix|, o, l, |prefix| + 1 + |sl|, r, |prefix| + 1 + |sl| + |sr|);
  }

  /** A cut token followed by two trees that read successfully reads as a cut. */
  lemma ParseCut(tokens: seq<Token>, pos: nat, o: Orientation, l: Tree, mid: nat, r: Tree, next: nat)
    requires pos < |tokens| && tokens[pos] == CutToken(o)
    requires Parse(tokens, pos + 1) == Ok((l, mid))
    requires mid <= |tokens| && Parse(tokens, mid) == Ok((r, next))
    ensures Parse(tokens, pos) == Ok((Cut(o, l, r), next))
  {
  }

  /** Conversely, whatever a successful read consumed is the serialization of
      the tree it returned. */
  lemma {:induction false} ParsedIsSerialized(tokens: seq<Token>, pos: nat, t: Tree, next: nat)
    requires pos <= |tokens| && Parse(tokens, pos) == Ok((t, next))
    ensures next <= |tokens| && tokens[pos..next] == Serialize(t)
    decreases t
  {
    match t
    case Leaf(_, _, _) =>
    case Cut(o, l, r) =>
      var mid := ParsedCut(tokens, pos, o, l, r, next);
      ParsedIsSerialized(tokens, pos + 1, l, mid);
      ParsedIsSerialized(tokens, mid, r, next);
      assert tokens[pos..next] == [tokens[pos]] + tokens[pos + 1..mid] + tokens[mid..next];
  }

  /** A read that returned a cut met its token and then read its two subtrees
      one after the other; mid is where the right subtree starts. */
  lemma ParsedCut(tokens: seq<Token>, pos: nat, o: Orientation, l: Tree, r: Tree, next: nat) returns (mid: nat)
    requires pos <= |tokens| && Parse(tokens, pos) == Ok((Cut(o, l, r), next))
    ensures pos < |tokens| && tokens[pos] == CutToken(o)
    ensures mid <= |tokens| && Parse(tokens, pos + 1) == Ok((l, mid)) && Parse(tokens, mid) == Ok((r, next))
  {
    mid := Parse(tokens, pos + 1).value.1;
  }

  /** A read fails exactly when no tree is written at that position: on error,
      no serialization of any tree is a prefix of the remaining tokens. */
  lemma ParseFailsOnlyWithoutTree(tokens: seq<Token>, pos: nat)
    requires pos <= |tokens| && Parse(tokens, pos).Err?
    ensures forall t :: !(Serialize(t) <= tokens[pos..])
  {
    forall t | Serialize(t) <= tokens[pos..]
      ensures false
    {
      var n := pos + |Serialize(t)|;
      assert tokens[pos..n] == tokens[pos..][..|Serialize(t)|];
      assert tokens == tokens[..pos] + Serialize(t) + tokens[n..];
      ParseSerialized(tokens[..pos], t, tokens[n..]);
    }
  }
}
