/**
 Trees of block collections in any layout: their text, their tokens, and that the scanner gets the
 one from the other.
 */
module BlockTree {
  import opened Chars
  import opened ScalarScan
  import opened Options
  import opened Resolve
  import opened Tokens
  import opened Scanner
  import opened ScanSteps
  import opened Spelling
  import opened Folding
  import opened FlowText
  import opened BlockScalars
  import F = FlowTrees
  import G = Grammar

  // ---------- trees and their layout ----------

  /** In front of a node: spaces, or line breaks and the spaces of its own line. */
  datatype Lead = Same(n: nat) | Next(fill: string, n: nat)

  datatype Block =
    | Leaf(scalar: Scalar)
    | Flow(tree: F.FlowTree, sep: string)   // in brackets or braces, with `sep` behind its commas
    | List(items: seq<Item>)
    | Dict(members: seq<Member>)

  /** What stands behind a '-' or a ':': nothing, or a node. */
  datatype Slot = Empty | Filled(lead: Lead, node: Block)

  /** `fill`: the line breaks in front of an item or member that is not the first one. */
  datatype Item = Item(fill: string, slot: Slot)

  datatype Member = Member(fill: string, key: Scalar, space: string, slot: Slot)

  predicate FillOk(s: string) {
    TailOk(s) && s != "" && IsBreak(s[|s| - 1])
  }

  predicate LeadOk(lead: Lead) {
    match lead
    case Same(n) => n >= 1
    case Next(fill, _) => FillOk(fill)
  }

  predicate BlockOk(b: Block)
    decreases b
  {
    match b
    case Leaf(s) => ScalarOk(s)
    case Flow(tree, sep) =>
      && F.TreeOk(tree) && (tree.Sequence? || tree.Mapping?) && F.Height(tree) <= MAX_FLOW_LEVEL
      && Gap(sep) && Tabless(sep)
    case List(items) => items != [] && ItemsOk(items)
    case Dict(members) => members != [] && MembersOk(members)
  }

  /** May stand on the line of its key. */
  predicate Inline(b: Block) {
    b.Leaf? || b.Flow?
  }

  predicate SlotOk(s: Slot)
    decreases s
  {
    s.Filled? ==> LeadOk(s.lead) && BlockOk(s.node)
  }

  predicate ItemOk(x: Item)
    decreases x
  {
    FillOk(x.fill) && SlotOk(x.slot)
  }

  predicate ItemsOk(items: seq<Item>)
    decreases items
  {
    items == [] || (ItemOk(items[0]) && ItemsOk(items[1..]))
  }

  /** A key is on one line and not too long; a block collection behind it begins on a line of its own. */
  predicate MemberOk(x: Member)
    decreases x
  {
    && FillOk(x.fill) && KeyOk(x.key, x.space) && SlotOk(x.slot)
    && (x.slot.Filled? && x.slot.lead.Same? ==> Inline(x.slot.node))
  }

  predicate KeyOk(key: Scalar, space: string) {
    ScalarOk(key) && OneLine(key) && Blanks(space) && |ScalarText(key)| + |space| <= 1024
  }

  predicate MembersOk(members: seq<Member>)
    decreases members
  {
    members == [] || (MemberOk(members[0]) && MembersOk(members[1..]))
  }

  function ColumnOf(lead: Lead, column: nat): nat {
    match lead
    case Same(n) => column + n
    case Next(_, n) => n
  }

  function KeyWidth(x: Member): nat
    requires MemberOk(x)
  {
    |ScalarText(x.key)| + |x.space| + 1
  }

  /**
   The columns are right: a node is further in than the block around it, but a list as the value of
   a member may be level with the member.
   */
  predicate Fits(b: Block, level: bool, parent: int, column: nat)
    requires BlockOk(b)
    decreases b
  {
    match b
    case Leaf(s) => column > parent && Deep(s, parent)
    case Flow(_, _) => column > parent
    case List(items) => (column > parent || (level && column == parent)) && ItemsFit(items, column)
    case Dict(members) => column > parent && MembersFit(members, column)
  }

  predicate SlotFits(s: Slot, level: bool, parent: nat, column: nat)
    requires SlotOk(s)
    decreases s
  {
    s.Filled? ==> Fits(s.node, level, parent, ColumnOf(s.lead, column))
  }

  predicate ItemFits(x: Item, column: nat)
    requires ItemOk(x)
    decreases x
  {
    SlotFits(x.slot, false, column, column + 1)
  }

  predicate ItemsFit(items: seq<Item>, column: nat)
    requires ItemsOk(items)
    decreases items
  {
    items == [] || (ItemFits(items[0], column) && ItemsFit(items[1..], column))
  }

  predicate MemberFits(x: Member, column: nat)
    requires MemberOk(x)
    decreases x
  {
    SlotFits(x.slot, true, column, column + KeyWidth(x))
  }

  predicate MembersFit(members: seq<Member>, column: nat)
    requires MembersOk(members)
    decreases members
  {
    members == [] || (MemberFits(members[0], column) && MembersFit(members[1..], column))
  }

  // ---------- the text ----------

  function Blank(n: nat): (s: string)
    ensures |s| == n && forall i :: 0 <= i < n ==> s[i] == ' '
  {
    seq(n, _ => ' ')
  }

  function LeadText(lead: Lead): string {
    match lead
    case Same(n) => Blank(n)
    case Next(fill, n) => fill + Blank(n)
  }

  function BlockText(b: Block, column: nat): string
    requires BlockOk(b)
    decreases b
  {
    match b
    case Leaf(s) => ScalarText(s)
    case Flow(tree, sep) => F.TreeText(tree, sep)
    case List(items) => ItemsText(items, column)
    case Dict(members) => MembersText(members, column)
  }

  function SlotText(s: Slot, column: nat): string
    requires SlotOk(s)
    decreases s
  {
    match s
    case Empty => ""
    case Filled(lead, node) => LeadText(lead) + BlockText(node, ColumnOf(lead, column))
  }

  function ItemText(x: Item, column: nat): string
    requires ItemOk(x)
    decreases x
  {
    "-" + SlotText(x.slot, column + 1)
  }

  function ItemsText(items: seq<Item>, column: nat): string
    requires ItemsOk(items)
    decreases items
  {
    if items == [] then ""
    else if |items| == 1 then ItemText(items[0], column)
    else ItemText(items[0], column) + ((items[1].fill + Blank(column)) + ItemsText(items[1..], column))
  }

  function MemberText(x: Member, column: nat): string
    requires MemberOk(x)
    decreases x
  {
    (ScalarText(x.key) + (x.space + ":")) + SlotText(x.slot, column + KeyWidth(x))
  }

  function MembersText(members: seq<Member>, column: nat): string
    requires MembersOk(members)
    decreases members
  {
    if members == [] then ""
    else if |members| == 1 then MemberText(members[0], column)
    else MemberText(members[0], column) + ((members[1].fill + Blank(column)) + MembersText(members[1..], column))
  }

  // ---------- the tokens ----------

  function BlockTokens(b: Block, parent: int, column: nat): seq<Token>
    requires BlockOk(b)
    decreases b
  {
    match b
    case Leaf(s) => [TokenOf(s)]
    case Flow(tree, _) => G.SynTokens(F.SyntaxOf(tree))
    case List(items) =>
      if column == parent then ItemsTokens(items, column)
      else [BlockSequenceStartToken] + ItemsTokens(items, column) + [BlockEndToken]
    case Dict(members) => [BlockMappingStartToken] + MembersTokens(members, column) + [BlockEndToken]
  }

  function SlotTokens(s: Slot, parent: nat, column: nat): seq<Token>
    requires SlotOk(s)
    decreases s
  {
    match s
    case Empty => []
    case Filled(lead, node) => BlockTokens(node, parent, ColumnOf(lead, column))
  }

  function ItemTokens(x: Item, column: nat): seq<Token>
    requires ItemOk(x)
    decreases x
  {
    [BlockEntryToken] + SlotTokens(x.slot, column, column + 1)
  }

  function ItemsTokens(items: seq<Item>, column: nat): seq<Token>
    requires ItemsOk(items)
    decreases items
  {
    if items == [] then [] else ItemTokens(items[0], column) + ItemsTokens(items[1..], column)
  }

  function MemberTokens(x: Member, column: nat): seq<Token>
    requires MemberOk(x)
    decreases x
  {
    [KeyToken, TokenOf(x.key), ValueToken] + SlotTokens(x.slot, column, column + KeyWidth(x))
  }

  function MembersTokens(members: seq<Member>, column: nat): seq<Token>
    requires MembersOk(members)
    decreases members
  {
    if members == [] then [] else MemberTokens(members[0], column) + MembersTokens(members[1..], column)
  }

  // ---------- nesting ----------

  function More(a: nat, b: nat): nat {
    if a < b then b else a
  }

  function Levels(b: Block): nat
    decreases b
  {
    match b
    case Leaf(_) => 0
    case Flow(_, _) => 0
    case List(items) => 1 + ItemsLevels(items)
    case Dict(members) => 1 + MembersLevels(members)
  }

  function SlotLevels(s: Slot): nat
    decreases s
  {
    if s.Filled? then Levels(s.node) else 0
  }

  function ItemLevels(x: Item): nat
    decreases x
  {
    SlotLevels(x.slot)
  }

  function ItemsLevels(items: seq<Item>): nat
    decreases items
  {
    if items == [] then 0 else More(ItemLevels(items[0]), ItemsLevels(items[1..]))
  }

  function MemberLevels(x: Member): nat
    decreases x
  {
    SlotLevels(x.slot)
  }

  function MembersLevels(members: seq<Member>): nat
    decreases members
  {
    if members == [] then 0 else More(MemberLevels(members[0]), MembersLevels(members[1..]))
  }

  // ---------- dashes and keys ----------

  ghost function DashedState(sc: State, column: nat, m: Mark): State {
    var r := Rolled(sc, column, BlockSequenceStartToken);
    r.(tokens := r.tokens + [BlockEntryToken], keys := [None], keyAllowed := true, mark := m)
  }

  lemma DashFetched(t: string, f: State -> Fetched, sc: State, m: Mark)
    requires Fetches(t, f) && Here(t, sc, m, true) && IdleKey(sc) && sc.indent <= m.column
    requires Ch(t, m.index) == '-' && IsBlankz(Ch(t, m.index + 1))
    requires sc.indent < m.column ==> |sc.indents| < MAX_INDENTS
    ensures f(sc) == Ok(DashedState(sc, m.column, Skip(m)))
  {
    hide Dispatch, Settle, KeysInTime, Fetches;
    IdleInTime(sc);
    HereNext(t, f, sc, m, true);
    DispatchIndicator(t, sc.(mark := m, keyAllowed := true));
    assert sc.keys[0 := None] == [None];
  }

  ghost function KeyedState(sc: State, column: nat, key: Token, m: Mark): State {
    var r := Rolled(sc, column, BlockMappingStartToken);
    r.(tokens := r.tokens + [KeyToken, key, ValueToken], keys := [None], keyAllowed := false, mark := m)
  }

  /** A plain scalar up to the ':' that makes it a key. */
  lemma {:induction false} PlainKeyScanned(t: string, parent: int, m: Mark, v: string, space: string)
    returns (end: Mark)
    requires BeginsPlain(v) && Fragment(v, 0) && m.column >= parent && Blanks(space)
    requires Reads(t, m.index, v) && Reads(t, m.index + |v|, space)
    requires var k := m.index + |v| + |space|; Ch(t, k) == ':' && IsBlankz(Ch(t, k + 1))
    ensures ScanPlain(t, 0, parent, m) == PlainOk(v, end, Advance(m, |v| + |space|), false)
    ensures !DocIndicatorAt(t, m)
  {
    hide ScanPlain, PlainChars, PlainBlanks, DocIndicatorAt, Join, BeginsPlain, Fragment;
    var m1 := Advance(m, |v|);
    end := m1;
    if space != "" { ReadsFirst(t, m1.index, space); }
    NoIndicator(t, m, v);
    PlainStarts(t, 0, parent, m, v);
    FragmentIsRead(t, 0, parent + 1, m, v, "", m, "", "", false);
    NothingJoined();
    assert "" + "" + v == v;
    FragmentThere(v);
    if space == "" {
      assert Advance(m, |v| + 0) == m1;
      ColonStops(t, parent + 1, m1, v, end, "");
    } else {
      PlainBlanksBegin(t, 0, parent + 1, m1, v, end);
      PlainBlankRun(t, 0, parent + 1, m1, v, end, "", "", "", false, space);
      assert "" + space == space;
      ColonStops(t, parent + 1, Advance(m1, |space|), v, end, space);
      assert Advance(m1, |space|) == Advance(m, |v| + |space|);
    }
  }

  lemma FragmentThere(v: string)
    requires Fragment(v, 0)
    ensures |v| > 0
  {
  }

  lemma ColonStops(t: string, indent: int, m: Mark, v: string, end: Mark, ws: string)
    requires Ch(t, m.index) == ':' && IsBlankz(Ch(t, m.index + 1)) && m.column >= indent
    ensures PlainChars(t, 0, indent, m, v, end, ws, "", "", false) == PlainOk(v, end, m, false)
    ensures PlainBlanks(t, 0, indent, m, v, end, ws, "", "", false) == PlainOk(v, end, m, false)
  {
    assert PlainChars(t, 0, indent, m, v, end, ws, "", "", false) == PlainOk(v, end, m, false);
    assert PlainTop(t, 0, indent, m, v, end, ws, "", "", false) == PlainOk(v, end, m, false);
  }

  lemma {:induction false} PlainKeyRead(t: string, f: State -> Fetched, sc: State, m: Mark, allowed: bool, key: Scalar,
      space: string)
    returns (sc1: State)
    requires key.PlainScalar?
    requires Fetches(t, f) && Here(t, sc, m, allowed) && IdleKey(sc) && sc.indent <= m.column && ScalarOk(key)
    requires OneLine(key) && Blanks(space)
    requires Reads(t, m.index, ScalarText(key)) && Reads(t, m.index + |ScalarText(key)|, space)
    requires var k := m.index + |ScalarText(key)| + |space|; Ch(t, k) == ':' && IsBlankz(Ch(t, k + 1))
    ensures f(sc) == Ok(sc1) && Taken(sc, sc1, m, allowed, TokenOf(key))
    ensures sc1.mark.line == m.line && sc1.mark.index <= m.index + |ScalarText(key)| + |space|
    ensures Settle(t, sc1.mark, 0, sc1.keyAllowed) == (Advance(m, |ScalarText(key)| + |space|), false)
  {
    hide Dispatch, KeysInTime, Fragment, BeginsPlain, ScanPlain, DocIndicatorAt;
    OneLineText(key);
    IdleInTime(sc);
    var r := sc.(mark := m, keyAllowed := allowed);
    SavedAt(sc, m, allowed);
    var end := PlainKeyScanned(t, sc.indent, m, key.v, space);
    PlainIsNext(t, r, key.v);
    HereNext(t, f, sc, m, allowed);
    sc1 := f(sc).value;
    SettleBlanks(t, sc1.mark, "");
    assert Advance(sc1.mark, 0) == sc1.mark;
  }

  lemma {:induction false} QuotedKeyRead(t: string, f: State -> Fetched, sc: State, m: Mark, allowed: bool, key: Scalar,
      space: string)
    returns (sc1: State)
    requires key.QuotedScalar?
    requires Fetches(t, f) && Here(t, sc, m, allowed) && IdleKey(sc) && sc.indent <= m.column && ScalarOk(key)
    requires OneLine(key) && Blanks(space)
    requires Reads(t, m.index, ScalarText(key)) && Reads(t, m.index + |ScalarText(key)|, space)
    requires var k := m.index + |ScalarText(key)| + |space|; Ch(t, k) == ':' && IsBlankz(Ch(t, k + 1))
    ensures f(sc) == Ok(sc1) && Taken(sc, sc1, m, allowed, TokenOf(key))
    ensures sc1.mark.line == m.line && sc1.mark.index <= m.index + |ScalarText(key)| + |space|
    ensures Settle(t, sc1.mark, 0, sc1.keyAllowed) == (Advance(m, |ScalarText(key)| + |space|), false)
  {
    hide Dispatch, KeysInTime, UnitsText, UnitsValue, UnitsOk, ScanFlow, Folding.LinesText, LinesValue,
      Folding.LinesOk, Continues, Settle;
    var text, single, units := ScalarText(key), key.single, key.units;
    OneLineText(key);
    ScalarFirst(t, m.index, key);
    IdleInTime(sc);
    var r := sc.(mark := m, keyAllowed := allowed);
    SavedAt(sc, m, allowed);
    assert Ch(t, m.index + |text|) != '\'' by { if space != "" { ReadsFirst(t, m.index + |text|, space); } }
    QuotedIsRead(t, single, m, units);
    DispatchQuoted(t, r);
    KeyNoColon(t, r);
    HereNext(t, f, sc, m, allowed);
    sc1 := f(sc).value;
    assert sc1.mark == Advance(m, |text|) && !sc1.keyAllowed;
    SettleBlanks(t, sc1.mark, space);
    assert Advance(sc1.mark, |space|) == Advance(m, |text| + |space|);
  }

  lemma KeyNoColon(t: string, r: State)
    requires Ch(t, r.mark.index) == '\'' || Ch(t, r.mark.index) == '"'
    ensures KeyIsLast(t, r)
  {
  }

  lemma {:induction false} OneLineText(s: Scalar)
    requires ScalarOk(s) && OneLine(s)
    ensures s.PlainScalar? ==> ScalarText(s) == s.v && ScalarSays(s) == s.v
    ensures s.QuotedScalar? ==>
      && ScalarText(s) == QuoteMark(s.single) + UnitsText(s.units, s.single) + QuoteMark(s.single)
      && ScalarSays(s) == UnitsValue(s.units, s.single)
  {
    hide UnitsText, UnitsValue, UnitsOk;
    match s
    case PlainScalar(v, more) => assert PlainLinesText(more) == "" && v + "" == v && PlainLinesValue(more, 0, 0) == "";
    case QuotedScalar(single, units, lines) =>
      var q, u := QuoteMark(single), UnitsText(units, single);
      assert Folding.LinesText(lines, single) == "" && LinesValue(lines, single) == "";
      assert q + (u + ("" + q)) == q + u + q && UnitsValue(units, single) + "" == UnitsValue(units, single);
  }

  /** The token of a key, with its ':' to come on the same line. */
  lemma {:induction false} KeyScalarRead(t: string, f: State -> Fetched, sc: State, m: Mark, allowed: bool, key: Scalar,
      space: string)
    returns (sc1: State)
    requires Fetches(t, f) && Here(t, sc, m, allowed) && IdleKey(sc) && sc.indent <= m.column && ScalarOk(key)
    requires OneLine(key) && Blanks(space)
    requires Reads(t, m.index, ScalarText(key) + (space + ":"))
    requires IsBlankz(Ch(t, m.index + |ScalarText(key)| + |space| + 1))
    ensures f(sc) == Ok(sc1) && Taken(sc, sc1, m, allowed, TokenOf(key))
    ensures sc1.mark.line == m.line && sc1.mark.index <= m.index + |ScalarText(key)| + |space|
    ensures Settle(t, sc1.mark, 0, sc1.keyAllowed) == (Advance(m, |ScalarText(key)| + |space|), false)
  {
    hide Dispatch, ScalarText, ScalarOk, Settle, TokenOf, OneLine, KeysInTime;
    var text := ScalarText(key);
    ReadsPart(t, m.index, text, space + ":");
    ReadsPart(t, m.index + |text|, space, ":");
    ReadsFirst(t, m.index + |text| + |space|, ":");
    if key.PlainScalar? {
      sc1 := PlainKeyRead(t, f, sc, m, allowed, key, space);
    } else {
      sc1 := QuotedKeyRead(t, f, sc, m, allowed, key, space);
    }
  }

  lemma {:induction false} SettleBlanks(t: string, m: Mark, gap: string)
    requires Blanks(gap) && Reads(t, m.index, gap) && !BlankOrBreak(Ch(t, m.index + |gap|))
    ensures Settle(t, m, 0, false) == (Advance(m, |gap|), false)
    decreases |gap|
  {
    if gap == "" {
      assert Advance(m, 0) == m;
    } else {
      ReadsFirst(t, m.index, gap);
      SettleBlanks(t, Skip(m), gap[1..]);
      assert Advance(Skip(m), |gap| - 1) == Advance(m, |gap|);
    }
  }

  /** A key and its ':'. */
  lemma {:induction false} KeyFetched(t: string, f: State -> Fetched, sc: State, m: Mark, key: Scalar, space: string)
    returns (sc1: State)
    requires Fetches(t, f) && Here(t, sc, m, true) && IdleKey(sc) && sc.indent <= m.column && KeyOk(key, space)
    requires Reads(t, m.index, ScalarText(key) + (space + ":"))
    requires IsBlankz(Ch(t, m.index + |ScalarText(key)| + |space| + 1))
    requires sc.indent < m.column ==> |sc.indents| < MAX_INDENTS
    ensures Run(f, sc, 2) == Ok(sc1)
    ensures sc1 == KeyedState(sc, m.column, TokenOf(key), Advance(m, |ScalarText(key)| + |space| + 1))
  {
    hide ScalarText, ScalarOk, TokenOf, OneLine, Dispatch, Settle, Run, FetchValue;
    var n := |ScalarText(key)| + |space|;
    var mid := KeyScalarRead(t, f, sc, m, true, key, space);
    ReadsPart(t, m.index, ScalarText(key), space + ":");
    ReadsPart(t, m.index + |ScalarText(key)|, space, ":");
    ReadsFirst(t, m.index + n, ":");
    var colon := Advance(m, n);
    var r := mid.(mark := colon, keyAllowed := false);
    assert Here(t, mid, colon, false) && KeysInTime(mid);
    HereNext(t, f, mid, colon, false);
    DispatchIndicator(t, r);
    ColonInserted(r, sc.tokens, TokenOf(key), m.column);
    sc1 := f(mid).value;
    assert Skip(colon) == Advance(m, n + 1);
    assert sc.tokens + KeyedTokens(sc, m.column, TokenOf(key))
        == Rolled(sc, m.column, BlockMappingStartToken).tokens + [KeyToken, TokenOf(key), ValueToken];
    RunTwo(f, sc, mid, sc1);
  }
}
