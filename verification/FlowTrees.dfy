/**
 Nested flow sequences and mappings as one writes them down, told from the data: "[a, b]",
 "{key: value}", with any separator behind the commas. They are read as themselves.
 */
module FlowTrees {
  import opened Chars
  import opened Unicode
  import opened Decoding
  import opened Options
  import opened Resolve
  import opened Tokens
  import opened Composer
  import opened Parser
  import opened Scanner
  import opened Spelling
  import opened NameSpelling
  import opened Grammar
  import opened GrammarStream
  import opened FlowText
  import opened FlowRead
  import RoundTrip

  /** An anchor, or none: names are not empty. */
  datatype FlowTree =
    | Leaf(anchor: string, form: Form)
    | Sequence(anchor: string, items: seq<FlowTree>)
    | Mapping(anchor: string, entries: seq<FlowEntry>)
    | Reference(name: string)

  datatype FlowEntry = FlowEntry(key: Form, value: FlowTree)

  // ---------- the text ----------

  function AnchorText(anchor: string): string {
    if anchor == "" then "" else "&" + anchor + " "
  }

  predicate TreeOk(tree: FlowTree)
    decreases tree, 1
  {
    && (!tree.Reference? ==> IsName(tree.anchor))
    && (match tree
        case Leaf(_, form) => FormOk(form)
        case Sequence(_, items) => ItemsOk(items)
        case Mapping(_, entries) => EntriesOk(entries)
        case Reference(name) => NameOk(name))
  }

  predicate ItemsOk(items: seq<FlowTree>)
    decreases items, 0
  {
    items == [] || (TreeOk(items[0]) && ItemsOk(items[1..]))
  }

  predicate EntriesOk(entries: seq<FlowEntry>)
    decreases entries, 0
  {
    entries == [] || (EntryOk(entries[0]) && EntriesOk(entries[1..]))
  }

  /** A key must be one that the scanner still takes for a simple one at the colon. */
  predicate EntryOk(e: FlowEntry)
    decreases e, 2
  {
    FormOk(e.key) && |FormText(e.key)| <= 1024 && TreeOk(e.value)
  }

  function TreeText(tree: FlowTree, sep: string): string
    requires TreeOk(tree)
    decreases tree, 1
  {
    match tree
    case Leaf(anchor, form) => AnchorText(anchor) + FormText(form)
    case Sequence(anchor, items) => AnchorText(anchor) + ("[" + ItemsText(items, sep) + "]")
    case Mapping(anchor, entries) => AnchorText(anchor) + ("{" + EntriesText(entries, sep) + "}")
    case Reference(name) => "*" + name
  }

  function ItemsText(items: seq<FlowTree>, sep: string): string
    requires ItemsOk(items)
    decreases items, 0
  {
    if items == [] then ""
    else TreeText(items[0], sep) + (if |items| == 1 then "" else "," + sep) + ItemsText(items[1..], sep)
  }

  function EntriesText(entries: seq<FlowEntry>, sep: string): string
    requires EntriesOk(entries)
    decreases entries, 0
  {
    if entries == [] then ""
    else
      EntryText(entries[0], sep) + (if |entries| == 1 then "" else "," + sep) + EntriesText(entries[1..], sep)
  }

  function EntryText(e: FlowEntry, sep: string): string
    requires EntryOk(e)
    decreases e, 2
  {
    FormText(e.key) + ": " + TreeText(e.value, sep)
  }

  /** Collections inside one another. */
  function Height(tree: FlowTree): nat
    decreases tree, 1
  {
    match tree
    case Sequence(_, items) => 1 + ItemsHeight(items)
    case Mapping(_, entries) => 1 + EntriesHeight(entries)
    case _ => 0
  }

  function Higher(a: nat, b: nat): nat {
    if a < b then b else a
  }

  function ItemsHeight(items: seq<FlowTree>): nat
    decreases items, 0
  {
    if items == [] then 0 else Higher(Height(items[0]), ItemsHeight(items[1..]))
  }

  function EntriesHeight(entries: seq<FlowEntry>): nat
    decreases entries, 0
  {
    if entries == [] then 0 else Higher(EntryHeight(entries[0]), EntriesHeight(entries[1..]))
  }

  function EntryHeight(e: FlowEntry): nat
    decreases e, 2
  {
    Height(e.value)
  }

  // ---------- the derivation ----------

  function PropsFor(anchor: string): Props {
    if anchor == "" then NO_PROPS else Props(Some(anchor), None, false)
  }

  function FormSyntax(anchor: string, form: Form): Syntax
    requires FormOk(form)
  {
    var token := FormToken(form);
    Text(PropsFor(anchor), token.value, token.style)
  }

  function SyntaxOf(tree: FlowTree): Syntax
    requires TreeOk(tree)
    decreases tree, 1
  {
    match tree
    case Leaf(anchor, form) => FormSyntax(anchor, form)
    case Sequence(anchor, items) => FlowList(PropsFor(anchor), ItemParts(items), false)
    case Mapping(anchor, entries) => FlowMap(PropsFor(anchor), EntryParts(entries), false)
    case Reference(name) => AliasOf(name)
  }

  function ItemParts(items: seq<FlowTree>): seq<Part>
    requires ItemsOk(items)
    decreases items, 0
  {
    if items == [] then [] else [Single(SyntaxOf(items[0]))] + ItemParts(items[1..])
  }

  function EntryParts(entries: seq<FlowEntry>): seq<Part>
    requires EntriesOk(entries)
    decreases entries, 0
  {
    if entries == [] then [] else [EntryPart(entries[0])] + EntryParts(entries[1..])
  }

  function EntryPart(e: FlowEntry): Part
    requires EntryOk(e)
    decreases e, 2
  {
    Both(FormSyntax("", e.key), SyntaxOf(e.value))
  }

  // ---------- the pieces ----------

  function AnchorPieces(anchor: string): seq<Placed> {
    if anchor == "" then [] else [Placed(AnchorPiece(anchor), " ")]
  }

  function Pieces(tree: FlowTree, sep: string): seq<Placed>
    requires TreeOk(tree)
    decreases tree, 1
  {
    match tree
    case Leaf(anchor, form) => AnchorPieces(anchor) + [Placed(ScalarPiece(form), "")]
    case Sequence(anchor, items) =>
      AnchorPieces(anchor) + ([Placed(Open(false), "")] + ItemPieces(items, sep) + [Placed(Close(false), "")])
    case Mapping(anchor, entries) =>
      AnchorPieces(anchor) + ([Placed(Open(true), "")] + EntryPieces(entries, sep) + [Placed(Close(true), "")])
    case Reference(name) => [Placed(AliasPiece(name), "")]
  }

  function CommaPieces(more: bool, sep: string): seq<Placed> {
    if more then [Placed(Comma, sep)] else []
  }

  function ItemPieces(items: seq<FlowTree>, sep: string): seq<Placed>
    requires ItemsOk(items)
    decreases items, 0
  {
    if items == [] then []
    else Pieces(items[0], sep) + (CommaPieces(|items| > 1, sep) + ItemPieces(items[1..], sep))
  }

  function EntryPieces(entries: seq<FlowEntry>, sep: string): seq<Placed>
    requires EntriesOk(entries)
    decreases entries, 0
  {
    if entries == [] then []
    else OnePieces(entries[0], sep) + (CommaPieces(|entries| > 1, sep) + EntryPieces(entries[1..], sep))
  }

  function OnePieces(e: FlowEntry, sep: string): seq<Placed>
    requires EntryOk(e)
    decreases e, 2
  {
    [Placed(KeyPiece(e.key, ""), " ")] + Pieces(e.value, sep)
  }

  // ---------- pieces may follow one another ----------

  /** These may come behind a node in this depth. */
  predicate Behind(depth: nat, rest: seq<Placed>) {
    if depth == 0 then rest == []
    else
      && rest != [] && (rest[0].piece.Comma? || rest[0].piece.Close?)
      && Follow(Spot(depth, Done, false), rest)
  }

  lemma DoneEither(depth: nat, free: bool, rest: seq<Placed>)
    requires Behind(depth, rest)
    ensures Follow(Spot(depth, Done, free), rest)
  {
  }

  lemma FollowOne(spot: Spot, p: Placed, rest: seq<Placed>)
    requires PieceOk(p) && MayStand(spot, p) && Follow(SpotAfter(spot, p), rest)
    requires p.piece.Close? && spot.depth == 1 ==> rest == [] && p.gap == ""
    ensures Follow(spot, [p] + rest)
  {
    assert ([p] + rest)[1..] == rest;
  }

  /** From every such spot. */
  ghost predicate FromAny(depth: nat, mode: Option<Mode>, rest: seq<Placed>) {
    forall spot: Spot :: spot.depth == depth && (mode.Some? ==> spot.mode == mode.value) ==> Follow(spot, rest)
  }

  lemma AnchorFollows(spot: Spot, anchor: string, rest: seq<Placed>)
    requires IsName(anchor) && spot.mode != Done
    requires FromAny(spot.depth, Some(if anchor == "" then spot.mode else Expected), rest)
    ensures Follow(spot, AnchorPieces(anchor) + rest)
  {
    if anchor == "" {
      assert AnchorPieces(anchor) + rest == rest;
      assert Spot(spot.depth, spot.mode, spot.free) == spot;
    } else {
      var p := Placed(AnchorPiece(anchor), " ");
      assert OnlySpaces(" ") && Gap(" ");
      FollowOne(spot, p, rest);
    }
  }

  lemma {:induction false} TreeFollows(spot: Spot, tree: FlowTree, sep: string, rest: seq<Placed>)
    requires TreeOk(tree) && Gap(sep) && spot.mode != Done && spot.depth + Height(tree) <= MAX_FLOW_LEVEL
    requires Behind(spot.depth, rest) && (spot.depth == 0 ==> tree.Sequence? || tree.Mapping?)
    ensures Follow(spot, Pieces(tree, sep) + rest)
    decreases tree, 1
  {
    hide FlowText.Follow, FormOk, FormText, AnchorPieces, ItemPieces, EntryPieces;
    match tree
    case Leaf(anchor, form) =>
      var p := Placed(ScalarPiece(form), "");
      forall at: Spot | at.depth == spot.depth && at.mode == (if anchor == "" then spot.mode else Expected)
        ensures Follow(at, [p] + rest)
      {
        DoneEither(spot.depth, SpotAfter(at, p).free, rest);
        FollowOne(at, p, rest);
      }
      AnchorFollows(spot, anchor, [p] + rest);
      assert Pieces(tree, sep) + rest == AnchorPieces(anchor) + ([p] + rest);
    case Reference(name) =>
      var p := Placed(AliasPiece(name), "");
      DoneEither(spot.depth, SpotAfter(spot, p).free, rest);
      FollowOne(spot, p, rest);
    case Sequence(anchor, items) =>
      var close := [Placed(Close(false), "")] + rest;
      CloseFollows(spot.depth, false, rest);
      ItemsFollow(spot.depth + 1, items, sep, close);
      OpenFollows(spot, anchor, false, ItemPieces(items, sep) + close);
      assert Pieces(tree, sep) + rest
          == AnchorPieces(anchor) + ([Placed(Open(false), "")] + (ItemPieces(items, sep) + close));
    case Mapping(anchor, entries) =>
      var close := [Placed(Close(true), "")] + rest;
      CloseFollows(spot.depth, true, rest);
      EntriesFollow(spot.depth + 1, entries, sep, close);
      OpenFollows(spot, anchor, true, EntryPieces(entries, sep) + close);
      assert Pieces(tree, sep) + rest
          == AnchorPieces(anchor) + ([Placed(Open(true), "")] + (EntryPieces(entries, sep) + close));
  }

  lemma OpenFollows(spot: Spot, anchor: string, isMap: bool, rest: seq<Placed>)
    requires IsName(anchor) && spot.mode != Done && spot.depth < MAX_FLOW_LEVEL
    requires Follow(Spot(spot.depth + 1, Fresh, true), rest)
    ensures Follow(spot, AnchorPieces(anchor) + ([Placed(Open(isMap), "")] + rest))
  {
    hide FlowText.Follow;
    var p := Placed(Open(isMap), "");
    forall at: Spot | at.depth == spot.depth && at.mode == (if anchor == "" then spot.mode else Expected)
      ensures Follow(at, [p] + rest)
    {
      FollowOne(at, p, rest);
    }
    AnchorFollows(spot, anchor, [p] + rest);
  }

  /** A closing bracket may come at every place inside. */
  lemma CloseFollows(depth: nat, isMap: bool, rest: seq<Placed>)
    requires Behind(depth, rest)
    ensures var close := [Placed(Close(isMap), "")] + rest;
      Behind(depth + 1, close) && FromAny(depth + 1, None, close)
  {
    hide FlowText.Follow;
    var p := Placed(Close(isMap), "");
    if depth == 0 { assert Follow(Spot(0, Done, false), rest) by { NothingMore(); } }
    forall at: Spot | at.depth == depth + 1 ensures Follow(at, [p] + rest) {
      FollowOne(at, p, rest);
    }
    assert ([p] + rest)[0] == p;
  }

  lemma NothingMore()
    ensures Follow(Spot(0, Done, false), [])
  {
  }

  lemma CommaFollows(depth: nat, sep: string, rest: seq<Placed>)
    requires depth > 0 && Gap(sep) && Follow(Spot(depth, Fresh, true), rest)
    ensures Behind(depth, [Placed(Comma, sep)] + rest)
  {
    hide FlowText.Follow;
    FollowOne(Spot(depth, Done, false), Placed(Comma, sep), rest);
  }

  lemma {:induction false} ItemsFollow(depth: nat, items: seq<FlowTree>, sep: string, close: seq<Placed>)
    requires depth > 0 && ItemsOk(items) && Gap(sep) && depth + ItemsHeight(items) <= MAX_FLOW_LEVEL
    requires Behind(depth, close) && FromAny(depth, None, close)
    ensures Follow(Spot(depth, Fresh, true), ItemPieces(items, sep) + close)
    decreases items, 0
  {
    hide FlowText.Follow, Pieces, Behind, TreeOk;
    if items == [] {
      assert ItemPieces(items, sep) + close == close;
    } else {
      var tail := ItemPieces(items[1..], sep) + close;
      ItemsFollow(depth, items[1..], sep, close);
      var rest := CommaPieces(|items| > 1, sep) + tail;
      if |items| > 1 {
        CommaFollows(depth, sep, tail);
      } else {
        assert ItemPieces(items[1..], sep) == [] && rest == close;
      }
      TreeFollows(Spot(depth, Fresh, true), items[0], sep, rest);
      assert ItemPieces(items, sep) + close == Pieces(items[0], sep) + rest;
    }
  }

  lemma {:induction false} EntriesFollow(depth: nat, entries: seq<FlowEntry>, sep: string, close: seq<Placed>)
    requires depth > 0 && EntriesOk(entries) && Gap(sep) && depth + EntriesHeight(entries) <= MAX_FLOW_LEVEL
    requires Behind(depth, close) && FromAny(depth, None, close)
    ensures Follow(Spot(depth, Fresh, true), EntryPieces(entries, sep) + close)
    decreases entries, 0
  {
    hide FlowText.Follow, OnePieces, Behind, EntryOk, EntryHeight;
    if entries == [] {
      assert EntryPieces(entries, sep) + close == close;
    } else {
      var tail := EntryPieces(entries[1..], sep) + close;
      EntriesFollow(depth, entries[1..], sep, close);
      var rest := CommaPieces(|entries| > 1, sep) + tail;
      if |entries| > 1 {
        CommaFollows(depth, sep, tail);
      } else {
        assert EntryPieces(entries[1..], sep) == [] && rest == close;
      }
      EntryFollows(depth, entries[0], sep, rest);
      assert EntryPieces(entries, sep) + close == OnePieces(entries[0], sep) + rest;
    }
  }

  lemma {:induction false} EntryFollows(depth: nat, e: FlowEntry, sep: string, rest: seq<Placed>)
    requires depth > 0 && EntryOk(e) && Gap(sep) && depth + EntryHeight(e) <= MAX_FLOW_LEVEL && Behind(depth, rest)
    ensures Follow(Spot(depth, Fresh, true), OnePieces(e, sep) + rest)
    decreases e, 2
  {
    hide FlowText.Follow, Pieces, Behind, FormText, FormOk, TreeOk;
    TreeFollows(Spot(depth, Expected, true), e.value, sep, rest);
    var key := Placed(KeyPiece(e.key, ""), " ");
    assert PieceOk(key) by { assert Gap(" ") && Blanks(""); }
    FollowOne(Spot(depth, Fresh, true), key, Pieces(e.value, sep) + rest);
    assert OnePieces(e, sep) + rest == [key] + (Pieces(e.value, sep) + rest);
  }

  // ---------- what the pieces are together ----------

  lemma {:induction false} PiecesJoin(a: seq<Placed>, b: seq<Placed>)
    requires AllOk(a) && AllOk(b)
    ensures AllOk(a + b)
    ensures PiecesText(a + b) == PiecesText(a) + PiecesText(b)
    ensures PiecesTokens(a + b) == PiecesTokens(a) + PiecesTokens(b)
    decreases |a|
  {
    hide PieceText, PieceTokens, PiecesText, PiecesTokens, PieceOk;
    if a == [] {
      assert a + b == b;
      NoPieces();
    } else {
      assert (a + b)[0] == a[0] && (a + b)[1..] == a[1..] + b;
      PiecesJoin(a[1..], b);
      assert AllOk(a + b);
      FirstOfPieces(a + b, a[1..] + b);
      FirstOfPieces(a, a[1..]);
      FirstJoins(PieceText(a[0]), a[0].gap, PiecesText(a[1..]), PiecesText(b));
    }
  }

  lemma FirstOfPieces(ps: seq<Placed>, rest: seq<Placed>)
    requires ps != [] && AllOk(ps) && rest == ps[1..]
    ensures PiecesText(ps) == PieceText(ps[0]) + (ps[0].gap + PiecesText(rest))
    ensures PiecesTokens(ps) == PieceTokens(ps[0]) + PiecesTokens(rest)
  {
    hide PieceText, PieceTokens, PieceOk;
  }

  lemma FirstJoins(x: string, y: string, z: string, w: string)
    ensures x + (y + (z + w)) == x + (y + z) + w
  {
  }

  lemma OnePiece(p: Placed)
    requires PieceOk(p)
    ensures AllOk([p]) && PiecesText([p]) == PieceText(p) + p.gap && PiecesTokens([p]) == PieceTokens(p)
  {
    hide PieceText, PieceTokens, PieceOk;
    assert [p][1..] == [];
    assert PiecesText([]) == "" && PiecesTokens([]) == [];
  }

  lemma NoPieces()
    ensures AllOk([]) && PiecesText([]) == "" && PiecesTokens([]) == []
  {
  }

  /** These pieces are well-formed, and have this text and these tokens. */
  predicate Spells(ps: seq<Placed>, text: string, tokens: seq<Token>) {
    AllOk(ps) && PiecesText(ps) == text && PiecesTokens(ps) == tokens
  }

  lemma SpellsJoin(a: seq<Placed>, ta: string, ka: seq<Token>, b: seq<Placed>, tb: string, kb: seq<Token>)
    requires Spells(a, ta, ka) && Spells(b, tb, kb)
    ensures Spells(a + b, ta + tb, ka + kb)
  {
    PiecesJoin(a, b);
  }

  lemma AnchorSpelled(anchor: string)
    requires IsName(anchor)
    ensures Spells(AnchorPieces(anchor), AnchorText(anchor), PropTokens(PropsFor(anchor)))
  {
    NoPieces();
    if anchor != "" {
      assert Gap(" ");
      OnePiece(Placed(AnchorPiece(anchor), " "));
    }
  }

  lemma MarkSpelled(p: Placed)
    requires PieceOk(p) && (p.piece.Open? || p.piece.Close? || p.piece.Comma?)
    ensures Spells([p], PieceText(p) + p.gap, PieceTokens(p))
  {
    OnePiece(p);
  }

  lemma {:induction false} TreeSpelled(tree: FlowTree, sep: string)
    requires TreeOk(tree) && Gap(sep)
    ensures Spells(Pieces(tree, sep), TreeText(tree, sep), SynTokens(SyntaxOf(tree)))
    decreases tree, 1
  {
    hide Spells, FormText, FormOk, FormToken, ItemsText, EntriesText, ItemPieces, EntryPieces, AnchorPieces,
      FlowTokens, ItemParts, EntryParts, PropTokens, AnchorText;
    match tree
    case Leaf(anchor, form) =>
      AnchorSpelled(anchor);
      LeafSpelled(anchor, form);
      SpellsJoin(AnchorPieces(anchor), AnchorText(anchor), PropTokens(PropsFor(anchor)),
                 [Placed(ScalarPiece(form), "")], FormText(form), [FormToken(form)]);
    case Reference(name) => ReferenceSpelled(name);
    case Sequence(anchor, items) =>
      ItemsSpelled(items, sep);
      Bracketed(anchor, false, ItemPieces(items, sep), ItemsText(items, sep), FlowTokens(ItemParts(items), false));
    case Mapping(anchor, entries) =>
      EntriesSpelled(entries, sep);
      Bracketed(anchor, true, EntryPieces(entries, sep), EntriesText(entries, sep),
                FlowTokens(EntryParts(entries), false));
  }

  lemma LeafSpelled(anchor: string, form: Form)
    requires FormOk(form)
    ensures Spells([Placed(ScalarPiece(form), "")], FormText(form), [FormToken(form)])
    ensures SynTokens(FormSyntax(anchor, form)) == PropTokens(PropsFor(anchor)) + [FormToken(form)]
  {
    hide FormText, FormOk;
    assert Gap("");
    OnePiece(Placed(ScalarPiece(form), ""));
    assert FormText(form) + "" == FormText(form);
  }

  lemma ReferenceSpelled(name: string)
    requires NameOk(name)
    ensures Spells([Placed(AliasPiece(name), "")], "*" + name, SynTokens(AliasOf(name)))
  {
    assert Gap("");
    OnePiece(Placed(AliasPiece(name), ""));
    assert "*" + name + "" == "*" + name;
    assert PropTokens(NO_PROPS) == [];
  }

  lemma Bracketed(anchor: string, isMap: bool, inner: seq<Placed>, text: string, tokens: seq<Token>)
    requires IsName(anchor) && Spells(inner, text, tokens)
    ensures var open, close := if isMap then "{" else "[", if isMap then "}" else "]";
      var first, last := if isMap then FlowMappingStartToken else FlowSequenceStartToken,
                         if isMap then FlowMappingEndToken else FlowSequenceEndToken;
      Spells(AnchorPieces(anchor) + ([Placed(Open(isMap), "")] + inner + [Placed(Close(isMap), "")]),
             AnchorText(anchor) + (open + text + close), PropTokens(PropsFor(anchor)) + ([first] + tokens + [last]))
  {
    hide Spells, AnchorPieces, AnchorText, PropTokens;
    assert Gap("");
    var open, close := Placed(Open(isMap), ""), Placed(Close(isMap), "");
    AnchorSpelled(anchor);
    MarkSpelled(open);
    MarkSpelled(close);
    assert PieceText(open) + "" == PieceText(open) && PieceText(close) + "" == PieceText(close);
    SpellsJoin([open], PieceText(open), PieceTokens(open), inner, text, tokens);
    SpellsJoin([open] + inner, PieceText(open) + text, PieceTokens(open) + tokens,
               [close], PieceText(close), PieceTokens(close));
    SpellsJoin(AnchorPieces(anchor), AnchorText(anchor), PropTokens(PropsFor(anchor)),
               [open] + inner + [close], PieceText(open) + text + PieceText(close),
               PieceTokens(open) + tokens + PieceTokens(close));
  }

  lemma CommaSpelled(more: bool, sep: string)
    requires Gap(sep)
    ensures Spells(CommaPieces(more, sep), if more then "," + sep else "", if more then [FlowEntryToken] else [])
  {
    NoPieces();
    if more { OnePiece(Placed(Comma, sep)); }
  }

  /** The tokens of parts, one behind the other. */
  lemma PartsSplit(parts: seq<Part>)
    requires parts != []
    ensures FlowTokens(parts, false)
         == PartTokens(parts[0]) + ((if |parts| > 1 then [FlowEntryToken] else []) + FlowTokens(parts[1..], false))
  {
    hide PartTokens;
    var rest := parts[1..];
    if rest == [] {
      assert MoreTokens(rest, false) == [] && FlowTokens(rest, false) == [];
      assert [] + FlowTokens(rest, false) == [];
    } else {
      assert MoreTokens(rest, false) == [FlowEntryToken] + (PartTokens(rest[0]) + MoreTokens(rest[1..], false));
    }
  }

  lemma {:induction false} PartsCount(items: seq<FlowTree>, entries: seq<FlowEntry>)
    requires ItemsOk(items) && EntriesOk(entries)
    ensures |ItemParts(items)| == |items| && |EntryParts(entries)| == |entries|
    decreases |items| + |entries|
  {
    hide SyntaxOf, EntryPart, TreeOk, EntryOk;
    if items != [] { PartsCount(items[1..], []); }
    if entries != [] { PartsCount([], entries[1..]); }
  }

  lemma {:induction false} ItemsSpelled(items: seq<FlowTree>, sep: string)
    requires ItemsOk(items) && Gap(sep)
    ensures Spells(ItemPieces(items, sep), ItemsText(items, sep), FlowTokens(ItemParts(items), false))
    decreases items, 0
  {
    hide Spells, Pieces, TreeText, SyntaxOf, SynTokens, TreeOk, FlowTokens;
    if items == [] {
      assert Spells([], "", []) by { NoPieces(); NothingSpelled(); }
      assert FlowTokens([], false) == [] by { NothingSpelled(); }
    } else {
      var more, rest := |items| > 1, items[1..];
      TreeSpelled(items[0], sep);
      ItemsSpelled(rest, sep);
      CommaSpelled(more, sep);
      SpellsJoin(CommaPieces(more, sep), if more then "," + sep else "", if more then [FlowEntryToken] else [],
                 ItemPieces(rest, sep), ItemsText(rest, sep), FlowTokens(ItemParts(rest), false));
      SpellsJoin(Pieces(items[0], sep), TreeText(items[0], sep), SynTokens(SyntaxOf(items[0])),
                 CommaPieces(more, sep) + ItemPieces(rest, sep),
                 (if more then "," + sep else "") + ItemsText(rest, sep),
                 (if more then [FlowEntryToken] else []) + FlowTokens(ItemParts(rest), false));
      PartsCount(items, []);
      PartsSplit(ItemParts(items));
      assert ItemParts(items)[1..] == ItemParts(rest);
      assert ItemsText(items, sep)
          == TreeText(items[0], sep) + ((if more then "," + sep else "") + ItemsText(rest, sep));
    }
  }

  lemma NothingSpelled()
    ensures Spells([], "", []) && FlowTokens([], false) == []
  {
  }

  lemma {:induction false} EntriesSpelled(entries: seq<FlowEntry>, sep: string)
    requires EntriesOk(entries) && Gap(sep)
    ensures Spells(EntryPieces(entries, sep), EntriesText(entries, sep), FlowTokens(EntryParts(entries), false))
    decreases entries, 0
  {
    hide Spells, OnePieces, EntryText, EntryPart, PartTokens, EntryOk, FlowTokens;
    if entries == [] {
      NothingSpelled();
    } else {
      var more, rest := |entries| > 1, entries[1..];
      EntrySpelled(entries[0], sep);
      EntriesSpelled(rest, sep);
      CommaSpelled(more, sep);
      SpellsJoin(CommaPieces(more, sep), if more then "," + sep else "", if more then [FlowEntryToken] else [],
                 EntryPieces(rest, sep), EntriesText(rest, sep), FlowTokens(EntryParts(rest), false));
      SpellsJoin(OnePieces(entries[0], sep), EntryText(entries[0], sep), PartTokens(EntryPart(entries[0])),
                 CommaPieces(more, sep) + EntryPieces(rest, sep),
                 (if more then "," + sep else "") + EntriesText(rest, sep),
                 (if more then [FlowEntryToken] else []) + FlowTokens(EntryParts(rest), false));
      PartsCount([], entries);
      PartsSplit(EntryParts(entries));
      assert EntryParts(entries)[1..] == EntryParts(rest);
      assert EntriesText(entries, sep)
          == EntryText(entries[0], sep) + ((if more then "," + sep else "") + EntriesText(rest, sep));
    }
  }

  lemma {:induction false} EntrySpelled(e: FlowEntry, sep: string)
    requires EntryOk(e) && Gap(sep)
    ensures Spells(OnePieces(e, sep), EntryText(e, sep), PartTokens(EntryPart(e)))
    decreases e, 2
  {
    hide Spells, Pieces, TreeText, SyntaxOf, SynTokens, TreeOk, FormText, FormOk, FormToken;
    TreeSpelled(e.value, sep);
    KeySpelled(e.key);
    var keyed := [KeyToken, FormToken(e.key), ValueToken];
    SpellsJoin([Placed(KeyPiece(e.key, ""), " ")], FormText(e.key) + ": ", keyed,
               Pieces(e.value, sep), TreeText(e.value, sep), SynTokens(SyntaxOf(e.value)));
    assert keyed + SynTokens(SyntaxOf(e.value))
        == [KeyToken] + [FormToken(e.key)] + ([ValueToken] + SynTokens(SyntaxOf(e.value)));
  }

  lemma KeySpelled(form: Form)
    requires FormOk(form) && |FormText(form)| <= 1024
    ensures Spells([Placed(KeyPiece(form, ""), " ")], FormText(form) + ": ", [KeyToken, FormToken(form), ValueToken])
    ensures SynTokens(FormSyntax("", form)) == [FormToken(form)]
  {
    hide FormText, FormOk;
    assert Gap(" ") && Blanks("");
    OnePiece(Placed(KeyPiece(form, ""), " "));
    assert FormText(form) + ("" + ":") + " " == FormText(form) + ": ";
    LeafSpelled("", form);
    assert PropTokens(NO_PROPS) == [];
  }

  // ---------- the derivation is legal ----------

  lemma {:induction false} TreeLegal(tree: FlowTree, ds: seq<TagDirective>)
    requires TreeOk(tree)
    ensures Legal(SyntaxOf(tree), InFlow, ds) && Legal(SyntaxOf(tree), InBlock, ds) && !SyntaxOf(tree).Nothing?
    decreases tree, 1
  {
    hide FormOk, FormToken;
    match tree
    case Sequence(_, items) => ItemsLegal(items, ds);
    case Mapping(_, entries) => EntriesLegal(entries, ds);
    case _ =>
  }

  lemma {:induction false} ItemsLegal(items: seq<FlowTree>, ds: seq<TagDirective>)
    requires ItemsOk(items)
    ensures LegalParts(ItemParts(items), InFlow, ds) && KeysThere(ItemParts(items))
    decreases items, 0
  {
    hide TreeOk, SyntaxOf, Legal;
    if items != [] {
      TreeLegal(items[0], ds);
      ItemsLegal(items[1..], ds);
      assert ItemParts(items)[1..] == ItemParts(items[1..]);
    }
  }

  lemma {:induction false} EntriesLegal(entries: seq<FlowEntry>, ds: seq<TagDirective>)
    requires EntriesOk(entries)
    ensures LegalParts(EntryParts(entries), InFlow, ds)
    decreases entries, 0
  {
    hide EntryOk, EntryPart, LegalPart;
    if entries != [] {
      EntryLegal(entries[0], ds);
      EntriesLegal(entries[1..], ds);
      assert EntryParts(entries)[1..] == EntryParts(entries[1..]);
    }
  }

  lemma {:induction false} EntryLegal(e: FlowEntry, ds: seq<TagDirective>)
    requires EntryOk(e)
    ensures LegalPart(EntryPart(e), InFlow, ds)
    decreases e, 2
  {
    hide FormOk, FormToken;
    TreeLegal(e.value, ds);
  }

  lemma FlowIsFlow(tree: FlowTree)
    requires TreeOk(tree) && (tree.Sequence? || tree.Mapping?)
    ensures SyntaxOf(tree).FlowList? || SyntaxOf(tree).FlowMap?
  {
  }

  lemma FlowEnds(tree: FlowTree)
    requires TreeOk(tree) && (tree.Sequence? || tree.Mapping?)
    ensures var ts := SynTokens(SyntaxOf(tree));
      ts != [] && (ts[|ts| - 1].FlowSequenceEndToken? || ts[|ts| - 1].FlowMappingEndToken?)
  {
    hide ItemParts, EntryParts, FlowTokens;
  }

  // ---------- no tabs ----------

  /** Only the separators could hold tabs. */
  lemma {:induction false} PiecesTabless(tree: FlowTree, sep: string)
    requires TreeOk(tree) && Tabless(sep)
    ensures NoTabsIn(Pieces(tree, sep))
    decreases tree, 1
  {
    hide FormOk;
    match tree
    case Sequence(_, items) => ItemsTabless(items, sep);
    case Mapping(_, entries) => EntriesTabless(entries, sep);
    case _ =>
  }

  lemma {:induction false} ItemsTabless(items: seq<FlowTree>, sep: string)
    requires ItemsOk(items) && Tabless(sep)
    ensures NoTabsIn(ItemPieces(items, sep))
    decreases items, 0
  {
    hide Pieces, TreeOk;
    if items != [] {
      PiecesTabless(items[0], sep);
      ItemsTabless(items[1..], sep);
    }
  }

  lemma {:induction false} EntriesTabless(entries: seq<FlowEntry>, sep: string)
    requires EntriesOk(entries) && Tabless(sep)
    ensures NoTabsIn(EntryPieces(entries, sep))
    decreases entries, 0
  {
    hide OnePieces, EntryOk;
    if entries != [] {
      EntryTabless(entries[0], sep);
      EntriesTabless(entries[1..], sep);
    }
  }

  lemma {:induction false} EntryTabless(e: FlowEntry, sep: string)
    requires EntryOk(e) && Tabless(sep)
    ensures NoTabsIn(OnePieces(e, sep))
    decreases e, 2
  {
    hide FormOk, FormText;
    PiecesTabless(e.value, sep);
  }

  // ---------- read back ----------

  /** What a flow tree means: its nodes, with what its anchors stand for. */
  function Meaning(tree: FlowTree, lib: Library): Result<Value, Failure>
    requires TreeOk(tree)
  {
    match Denote(SynNode(SyntaxOf(tree), WithDefaults([])), map[], lib)
    case Err(e) => Err(e)
    case Ok(d) => Ok(d.value)
  }

  /**
   Every nest of flow sequences and mappings, at most 10000 of them inside one another, with scalars in
   any style and spelling, anchors and aliases, is read as what it says.
   */
  lemma {:induction false} FlowTreeRead(tree: FlowTree, sep: string, tail: string, lib: Library)
    requires TreeOk(tree) && (tree.Sequence? || tree.Mapping?) && Height(tree) <= MAX_FLOW_LEVEL
    requires Gap(sep) && TailOk(tail) && AllReadable(TreeText(tree, sep) + tail)
    ensures RoundTrip.ReadBack(EncodeAll(TreeText(tree, sep) + tail), lib) == Meaning(tree, lib)
  {
    hide FlowText.Follow, Pieces, TreeText, SyntaxOf, SynTokens, TreeOk, Legal, EncodeAll, Denote, SynNode,
      AllReadable, RoundTrip.ReadBack, WithDefaults;
    var ps, x := Pieces(tree, sep), SyntaxOf(tree);
    TreeFollows(RootSpot(Implicit), tree, sep, []);
    assert ps + [] == ps;
    TreeSpelled(tree, sep);
    TreeLegal(tree, WithDefaults([]));
    assert ps != [] by { SomePieces(tree, sep); }
    assert Prefixes([]) == [];
    assert LegalStream([Alone(false, [], x)]);
    assert DirectiveTokens([]) == [];
    assert StreamText(Implicit, ps, tail) == TreeText(tree, sep) + tail;
    FlowReadBack(Implicit, ps, tail, [], x, lib);
  }

  lemma {:induction false} SomePieces(tree: FlowTree, sep: string)
    requires TreeOk(tree)
    ensures Pieces(tree, sep) != []
  {
  }
}
