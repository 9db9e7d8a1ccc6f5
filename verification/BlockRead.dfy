/**
 Block documents through the whole reader: mappings and lists in any layout, with scalars in any
 style and over any number of lines, are read as the values they say.
 */
module BlockRead {
  import opened Chars
  import opened Unicode
  import opened Decoding
  import opened Options
  import opened Resolve
  import opened Tokens
  import opened Composer
  import opened Parser
  import opened Scanner
  import opened ScanSteps
  import opened ScanToEnd
  import opened DemandScan
  import opened DemandKept
  import opened Grammar
  import opened GrammarStream
  import opened GrammarValue
  import opened BlockScalars
  import opened BlockTree
  import opened BlockScan
  import FlowText
  import F = FlowTrees
  import RoundTrip

  // ---------- what the text says ----------

  function WordsNode(s: Scalar): Node
    requires ScalarOk(s)
  {
    ScalarNode("", "", ScalarSays(s), s.PlainScalar?)
  }

  /** The node that a tree stands for; its layout does not matter. */
  function BlockNode(b: Block, ds: seq<TagDirective>): Node
    requires BlockOk(b)
    decreases b
  {
    match b
    case Leaf(s) => WordsNode(s)
    case Flow(tree, _) => SynNode(F.SyntaxOf(tree), ds)
    case List(items) => SequenceNode("", "", ItemNodes(items, ds))
    case Dict(members) => MappingNode("", "", MemberPairs(members, ds))
  }

  /** Nothing is null. */
  function SlotNode(s: Slot, ds: seq<TagDirective>): Node
    requires SlotOk(s)
    decreases s
  {
    match s
    case Empty => ScalarNode("", "", "", true)
    case Filled(_, node) => BlockNode(node, ds)
  }

  function ItemNode(x: Item, ds: seq<TagDirective>): Node
    requires ItemOk(x)
    decreases x
  {
    SlotNode(x.slot, ds)
  }

  function ItemNodes(items: seq<Item>, ds: seq<TagDirective>): seq<Node>
    requires ItemsOk(items)
    decreases items
  {
    if items == [] then [] else [ItemNode(items[0], ds)] + ItemNodes(items[1..], ds)
  }

  function MemberPair(x: Member, ds: seq<TagDirective>): Pair
    requires MemberOk(x)
    decreases x
  {
    Pair(WordsNode(x.key), SlotNode(x.slot, ds))
  }

  function MemberPairs(members: seq<Member>, ds: seq<TagDirective>): seq<Pair>
    requires MembersOk(members)
    decreases members
  {
    if members == [] then [] else [MemberPair(members[0], ds)] + MemberPairs(members[1..], ds)
  }

  /** The value of a tree on its own. */
  function BlockMeaning(b: Block, ds: seq<TagDirective>, lib: Library): Result<Value, Failure>
    requires BlockOk(b)
  {
    match Denote(BlockNode(b, ds), map[], lib)
    case Err(e) => Err(e)
    case Ok(d) => Ok(d.value)
  }

  // ---------- the derivation ----------

  function Words(s: Scalar): Syntax
    requires ScalarOk(s)
  {
    Text(NO_PROPS, ScalarSays(s), StyleOf(s))
  }

  function BlockSyntax(b: Block, parent: int, column: nat): Syntax
    requires BlockOk(b)
    decreases b
  {
    match b
    case Leaf(s) => Words(s)
    case Flow(tree, _) => F.SyntaxOf(tree)
    case List(items) =>
      if column == parent then PlainList(NO_PROPS, ItemsSyntax(items, column))
      else BlockList(NO_PROPS, ItemsSyntax(items, column))
    case Dict(members) => BlockMap(NO_PROPS, MemberParts(members, column))
  }

  function SlotSyntax(s: Slot, parent: nat, column: nat): Syntax
    requires SlotOk(s)
    decreases s
  {
    match s
    case Empty => Nothing
    case Filled(lead, node) => BlockSyntax(node, parent, ColumnOf(lead, column))
  }

  function ItemSyntax(x: Item, column: nat): Syntax
    requires ItemOk(x)
    decreases x
  {
    SlotSyntax(x.slot, column, column + 1)
  }

  function ItemsSyntax(items: seq<Item>, column: nat): seq<Syntax>
    requires ItemsOk(items)
    decreases items
  {
    if items == [] then [] else [ItemSyntax(items[0], column)] + ItemsSyntax(items[1..], column)
  }

  function MemberPart(x: Member, column: nat): Part
    requires MemberOk(x)
    decreases x
  {
    Both(Words(x.key), SlotSyntax(x.slot, column, column + KeyWidth(x)))
  }

  function MemberParts(members: seq<Member>, column: nat): seq<Part>
    requires MembersOk(members)
    decreases members
  {
    if members == [] then [] else [MemberPart(members[0], column)] + MemberParts(members[1..], column)
  }

  lemma NoProps(x: Syntax)
    requires PropsOf(x) == NO_PROPS
    ensures SynTokens(x) == ContentTokens(x)
  {
    hide ContentTokens;
    assert PropTokens(NO_PROPS) == [];
  }

  lemma {:induction false} BlockDerived(b: Block, parent: int, column: nat)
    requires BlockOk(b)
    ensures SynTokens(BlockSyntax(b, parent, column)) == BlockTokens(b, parent, column)
    decreases b
  {
    hide SynTokens, DashTokens, PairTokens, ItemsSyntax, MemberParts, ItemsTokens, MembersTokens, ScalarSays,
      F.SyntaxOf;
    if !b.Flow? { NoProps(BlockSyntax(b, parent, column)); }
    match b
    case Flow(_, _) =>
    case Leaf(s) =>
    case List(items) => ItemsDerived(items, column);
    case Dict(members) => MembersDerived(members, column);
  }

  lemma {:induction false} SlotDerived(s: Slot, parent: nat, column: nat)
    requires SlotOk(s)
    ensures SynTokens(SlotSyntax(s, parent, column)) == SlotTokens(s, parent, column)
    decreases s
  {
    hide BlockSyntax, BlockTokens;
    match s
    case Empty => NoProps(Nothing);
    case Filled(lead, node) => BlockDerived(node, parent, ColumnOf(lead, column));
  }

  lemma {:induction false} ItemDerived(x: Item, column: nat)
    requires ItemOk(x)
    ensures [BlockEntryToken] + SynTokens(ItemSyntax(x, column)) == ItemTokens(x, column)
    decreases x
  {
    SlotDerived(x.slot, column, column + 1);
  }

  lemma {:induction false} ItemsDerived(items: seq<Item>, column: nat)
    requires ItemsOk(items)
    ensures DashTokens(ItemsSyntax(items, column)) == ItemsTokens(items, column)
    decreases items
  {
    hide SynTokens, ItemSyntax, ItemTokens, ItemOk;
    if items != [] {
      ItemDerived(items[0], column);
      ItemsDerived(items[1..], column);
      assert ItemsSyntax(items, column)[1..] == ItemsSyntax(items[1..], column);
    }
  }

  lemma {:induction false} MemberDerived(x: Member, column: nat)
    requires MemberOk(x)
    ensures PartTokens(MemberPart(x, column)) == MemberTokens(x, column)
    decreases x
  {
    hide SynTokens, SlotSyntax, SlotTokens, ScalarSays;
    NoProps(Words(x.key));
    SlotDerived(x.slot, column, column + KeyWidth(x));
    var value := SynTokens(SlotSyntax(x.slot, column, column + KeyWidth(x)));
    assert [KeyToken] + [TokenOf(x.key)] + ([ValueToken] + value) == [KeyToken, TokenOf(x.key), ValueToken] + value;
  }

  lemma {:induction false} MembersDerived(members: seq<Member>, column: nat)
    requires MembersOk(members)
    ensures PairTokens(MemberParts(members, column)) == MembersTokens(members, column)
    decreases members
  {
    hide PartTokens, MemberPart, MemberTokens, MemberOk;
    if members != [] {
      MemberDerived(members[0], column);
      MembersDerived(members[1..], column);
      assert MemberParts(members, column)[1..] == MemberParts(members[1..], column);
    }
  }

  // ---------- it is legal ----------

  lemma {:induction false} BlockLegal(b: Block, level: bool, parent: int, column: nat, ds: seq<TagDirective>)
    requires BlockOk(b) && Fits(b, level, parent, column)
    ensures Legal(BlockSyntax(b, parent, column), if level then InBlockMap else InBlock, ds)
    ensures !BlockSyntax(b, parent, column).Nothing?
    decreases b
  {
    hide ScalarSays, ScalarOk, Deep, LegalItems, LegalParts, F.SyntaxOf, F.TreeOk, F.Height;
    match b
    case Flow(tree, _) =>
      F.TreeLegal(tree, ds);
      F.FlowIsFlow(tree);
      FlowLegal(F.SyntaxOf(tree), ds);
    case Leaf(s) =>
    case List(items) => ItemsLegal(items, column, ds);
    case Dict(members) => MembersLegal(members, column, ds);
  }

  /** Flow collections may stand wherever nodes may. */
  lemma FlowLegal(x: Syntax, ds: seq<TagDirective>)
    requires Legal(x, InBlock, ds) && (x.FlowList? || x.FlowMap?)
    ensures Legal(x, InBlockMap, ds)
  {
    hide LegalParts, LegalProps;
  }

  lemma {:induction false} SlotLegal(s: Slot, level: bool, parent: nat, column: nat, ds: seq<TagDirective>)
    requires SlotOk(s) && SlotFits(s, level, parent, column)
    ensures Legal(SlotSyntax(s, parent, column), if level then InBlockMap else InBlock, ds)
    decreases s
  {
    hide BlockSyntax, Fits, LegalItems, LegalParts;
    if s.Filled? { BlockLegal(s.node, level, parent, ColumnOf(s.lead, column), ds); }
  }

  lemma {:induction false} ItemLegal(x: Item, column: nat, ds: seq<TagDirective>)
    requires ItemOk(x) && ItemFits(x, column)
    ensures Legal(ItemSyntax(x, column), InBlock, ds)
    decreases x
  {
    SlotLegal(x.slot, false, column, column + 1, ds);
  }

  lemma {:induction false} ItemsLegal(items: seq<Item>, column: nat, ds: seq<TagDirective>)
    requires ItemsOk(items) && ItemsFit(items, column)
    ensures LegalItems(ItemsSyntax(items, column), ds) && (items != [] ==> ItemsSyntax(items, column) != [])
    decreases items
  {
    hide ItemOk, ItemFits, ItemSyntax, Legal;
    if items != [] {
      ItemLegal(items[0], column, ds);
      ItemsLegal(items[1..], column, ds);
      assert ItemsSyntax(items, column)[1..] == ItemsSyntax(items[1..], column);
    }
  }

  lemma {:induction false} MemberLegal(x: Member, column: nat, ds: seq<TagDirective>)
    requires MemberOk(x) && MemberFits(x, column)
    ensures LegalPart(MemberPart(x, column), InBlockMap, ds)
    decreases x
  {
    hide SlotSyntax, ScalarSays, ScalarOk;
    SlotLegal(x.slot, true, column, column + KeyWidth(x), ds);
  }

  lemma {:induction false} MembersLegal(members: seq<Member>, column: nat, ds: seq<TagDirective>)
    requires MembersOk(members) && MembersFit(members, column)
    ensures LegalParts(MemberParts(members, column), InBlockMap, ds)
    decreases members
  {
    hide MemberOk, MemberFits, MemberPart, LegalPart;
    if members != [] {
      MemberLegal(members[0], column, ds);
      MembersLegal(members[1..], column, ds);
      assert MemberParts(members, column)[1..] == MemberParts(members[1..], column);
    }
  }

  // ---------- it stands for its nodes ----------

  lemma {:induction false} BlockStands(b: Block, parent: int, column: nat, ds: seq<TagDirective>)
    requires BlockOk(b)
    ensures SynNode(BlockSyntax(b, parent, column), ds) == BlockNode(b, ds)
    decreases b
  {
    hide SynNodes, PartPairs, ItemsSyntax, MemberParts, ItemNodes, MemberPairs, ScalarSays, F.SyntaxOf;
    match b
    case Leaf(s) => WordsStand(s, ds);
    case Flow(_, _) =>
    case List(items) => ItemsStand(items, column, ds);
    case Dict(members) => MembersStand(members, column, ds);
  }

  lemma WordsStand(s: Scalar, ds: seq<TagDirective>)
    requires ScalarOk(s)
    ensures SynNode(Words(s), ds) == WordsNode(s)
  {
    hide ScalarSays;
  }

  lemma {:induction false} SlotStands(s: Slot, parent: nat, column: nat, ds: seq<TagDirective>)
    requires SlotOk(s)
    ensures SynNode(SlotSyntax(s, parent, column), ds) == SlotNode(s, ds)
    decreases s
  {
    hide BlockSyntax, BlockNode;
    if s.Filled? { BlockStands(s.node, parent, ColumnOf(s.lead, column), ds); }
  }

  lemma {:induction false} ItemStands(x: Item, column: nat, ds: seq<TagDirective>)
    requires ItemOk(x)
    ensures SynNode(ItemSyntax(x, column), ds) == ItemNode(x, ds)
    decreases x
  {
    SlotStands(x.slot, column, column + 1, ds);
  }

  lemma {:induction false} ItemsStand(items: seq<Item>, column: nat, ds: seq<TagDirective>)
    requires ItemsOk(items)
    ensures SynNodes(ItemsSyntax(items, column), ds) == ItemNodes(items, ds)
    decreases items
  {
    hide SynNode, ItemSyntax, ItemNode, ItemOk;
    if items != [] {
      ItemStands(items[0], column, ds);
      ItemsStand(items[1..], column, ds);
      assert ItemsSyntax(items, column)[1..] == ItemsSyntax(items[1..], column);
    }
  }

  lemma {:induction false} MemberStands(x: Member, column: nat, ds: seq<TagDirective>)
    requires MemberOk(x)
    ensures PartPair(MemberPart(x, column), ds) == MemberPair(x, ds)
    decreases x
  {
    hide SlotSyntax, SlotNode, Words, WordsNode;
    WordsStand(x.key, ds);
    SlotStands(x.slot, column, column + KeyWidth(x), ds);
  }

  lemma {:induction false} MembersStand(members: seq<Member>, column: nat, ds: seq<TagDirective>)
    requires MembersOk(members)
    ensures PartPairs(MemberParts(members, column), ds) == MemberPairs(members, ds)
    decreases members
  {
    hide PartPair, MemberPart, MemberPair, MemberOk;
    if members != [] {
      MemberStands(members[0], column, ds);
      MembersStand(members[1..], column, ds);
      assert MemberParts(members, column)[1..] == MemberParts(members[1..], column);
    }
  }

  // ---------- delivered and read ----------

  lemma {:induction false} LastOfBlock(b: Block, parent: int, column: nat)
    requires BlockOk(b) && parent == -1
    ensures var ts := BlockTokens(b, parent, column); ts != [] && !ts[|ts| - 1].StreamEndToken?
  {
    hide ItemsTokens, MembersTokens, ScalarSays, SynTokens;
    if b.Flow? { F.FlowEnds(b.tree); }
  }

  lemma {:induction false} BlockDelivered(head: Front, b: Block, tail: string)
    requires HeadFits(head, b) && BlockOk(b) && FlowText.TailOk(tail) && Fits(b, false, -1, RootColumn(head))
    requires Levels(b) <= MAX_INDENTS
    ensures ScanAll(DocumentText(head, b, tail)).Tokens()
         == [StreamStartToken] + HeadTokensOf(head) + BlockTokens(b, -1, RootColumn(head)) + [StreamEndToken]
  {
    hide BlockTokens, BlockText, Run, EndsOnce, DeliverFrom, HeadString, HeadTokensOf, BlockOk, Fits, Levels;
    var t := DocumentText(head, b, tail);
    var n, done := BlockFetched(head, b, tail, Fetcher(t));
    LastOfBlock(b, -1, RootColumn(head));
    EndsSo([StreamStartToken] + HeadTokensOf(head), BlockTokens(b, -1, RootColumn(head)));
    TextDelivered(t, n, done);
  }

  lemma EndsSo(before: seq<Token>, ts: seq<Token>)
    requires ts != [] && !ts[|ts| - 1].StreamEndToken?
    ensures EndsOnce(before + ts + [StreamEndToken])
  {
  }

  lemma StreamIs(head: Front, ds: seq<Directive>, x: Syntax, ts: seq<Token>)
    requires head.Marked? ==> FlowText.LinesOk(head.lines)
    requires HeadTokensOf(head) == DirectiveTokens(ds) + if head.Marked? then [DocumentStartToken] else []
    requires SynTokens(x) == ts
    ensures StreamTokens([Document(head.Marked?, ds, x, 0)])
         == [StreamStartToken] + HeadTokensOf(head) + ts + [StreamEndToken]
  {
    hide SynTokens, DirectiveTokens, HeadTokensOf;
    assert DocumentsTokens([]) == [] && [Document(head.Marked?, ds, x, 0)][1..] == [];
    assert EndTokens(0) == [];
  }

  /**
   Whatever mapping or list one writes down, in any indentation, with blank lines and with scalars plain
   or quoted and folded over lines, behind directives and "---" or not, is read as what it says.
   */
  lemma {:induction false} BlockIsRead(head: Front, b: Block, tail: string, ds: seq<Directive>, lib: Library)
    requires HeadFits(head, b) && BlockOk(b) && FlowText.TailOk(tail) && Fits(b, false, -1, RootColumn(head))
    requires Levels(b) <= MAX_INDENTS && LegalDirectives(ds)
    requires HeadTokensOf(head) == DirectiveTokens(ds) + if head.Marked? then [DocumentStartToken] else []
    requires var t := DocumentText(head, b, tail); AllReadable(t) && t != "" && t[0] != '\U{FEFF}'
    ensures RoundTrip.ReadBack(EncodeAll(DocumentText(head, b, tail)), lib)
         == BlockMeaning(b, WithDefaults(Prefixes(ds)), lib)
  {
    hide BlockTokens, BlockSyntax, BlockNode, BlockText, HeadString, HeadTokensOf, BlockOk, Fits, Levels, HeadFits,
      LegalDirectives, DirectiveTokens, SynTokens, Legal, StreamTokens, DecodeStream, EncodeAll, RoundTrip.Read,
      AllReadable, Denote, SynNode, WithDefaults, ScanAll, FlowText.TailOk;
    LinesFine(head, b);
    var t, c := DocumentText(head, b, tail), RootColumn(head);
    var x := BlockSyntax(b, -1, c);
    var d := Document(head.Marked?, ds, x, 0);
    StreamsDecoded(Utf8, t);
    BlockDelivered(head, b, tail);
    BlockDerived(b, -1, c);
    StreamIs(head, ds, x, BlockTokens(b, -1, c));
    BlockLegal(b, false, -1, c, WithDefaults(Prefixes(ds)));
    if !head.Marked? { NoDirectives(head, ds); }
    assert LegalStream([d]);
    StreamRead([d], lib);
    BlockStands(b, -1, c, WithDefaults(Prefixes(ds)));
    assert [d][0] == d;
  }

  lemma LinesFine(head: Front, b: Block)
    requires HeadFits(head, b)
    ensures head.Marked? ==> FlowText.LinesOk(head.lines)
  {
  }

  lemma NoDirectives(head: Front, ds: seq<Directive>)
    requires !head.Marked? && HeadTokensOf(head) == DirectiveTokens(ds) + []
    ensures ds == []
  {
  }
}
