/** Block trees in any layout are fetched as their tokens, whatever their nesting. */
module BlockScan {
  import opened Chars
  import opened ScalarScan
  import opened Options
  import opened Resolve
  import opened Tokens
  import opened Scanner
  import opened ScanSteps
  import opened Spelling
  import opened FlowText
  import opened BlockScalars
  import opened BlockTree
  import F = FlowTrees
  import G = Grammar
  import SD = ScanDocument
  import SS = ScanStream

  // ---------- leads ----------

  lemma BlankBehind(s: string, n: nat)
    ensures BreakIn(s + Blank(n)) <==> BreakIn(s)
    ensures Behind(s + Blank(n)) == Behind(s) + n
    decreases n
  {
    var all := s + Blank(n);
    if n == 0 {
      assert all == s;
    } else {
      assert all[|all| - 1] == ' ' && all[..|all| - 1] == s + Blank(n - 1);
      BlankBehind(s, n - 1);
      NoneBehind(all);
    }
  }

  lemma FillBehind(s: string)
    requires FillOk(s)
    ensures BreakIn(s) && Behind(s) == 0
  {
    assert IsBreak(s[|s| - 1]);
  }

  lemma BlanksAreTail(n: nat)
    ensures TailOk(Blank(n)) && !BreakIn(Blank(n))
  {
  }

  /** A lead is passed: the node begins in its column. */
  lemma LeadPassed(t: string, m: Mark, allowed: bool, lead: Lead)
    requires LeadOk(lead) && Reads(t, m.index, LeadText(lead)) && !BlankOrBreak(Ch(t, m.index + |LeadText(lead)|))
    ensures var (next, a) := Settle(t, m, 0, allowed);
      && next.index == m.index + |LeadText(lead)| && next.column == ColumnOf(lead, m.column)
      && a == (allowed || lead.Next?)
  {
    hide Settle;
    match lead
    case Same(n) =>
      BlanksAreTail(n);
      TailPassed(t, m, allowed, Blank(n));
    case Next(fill, n) =>
      FillBehind(fill);
      BlankBehind(fill, n);
      assert TailOk(fill + Blank(n));
      TailPassed(t, m, allowed, fill + Blank(n));
  }

  lemma LeadFirst(t: string, k: nat, lead: Lead)
    requires LeadOk(lead) && Reads(t, k, LeadText(lead))
    ensures LeadText(lead) != "" && IsBlankz(Ch(t, k))
  {
    ReadsFirst(t, k, LeadText(lead));
  }

  /** The line break and indentation in front of another item end the one before. */
  lemma FillEnds(t: string, k: nat, fill: string, column: nat)
    requires FillOk(fill) && Reads(t, k, fill + Blank(column)) && !BlankOrBreak(Ch(t, k + |fill| + column))
    ensures Ends(t, k, fill + Blank(column), column)
    ensures BreakIn(fill + Blank(column)) && Behind(fill + Blank(column)) == column
  {
    FillBehind(fill);
    BlankBehind(fill, column);
  }

  lemma EndsInside(t: string, k: nat, tail: string, parent: int, inner: int)
    requires Ends(t, k, tail, parent) && parent <= inner
    ensures Ends(t, k, tail, inner)
  {
  }

  // ---------- first characters ----------

  lemma {:induction false} BlockFirst(t: string, k: nat, b: Block, column: nat)
    requires BlockOk(b) && Reads(t, k, BlockText(b, column))
    ensures !BlankOrBreak(Ch(t, k)) && BlockText(b, column) != ""
  {
    hide ScalarText, ScalarOk, F.TreeText, F.TreeOk;
    match b
    case Leaf(s) => ScalarFirst(t, k, s);
    case Flow(tree, sep) => FlowFirst(t, k, tree, sep);
    case List(items) =>
      ItemsSplit(items, column);
      ItemFirst(t, k, items, column);
    case Dict(members) => MembersFirst(t, k, members, column);
  }

  lemma {:induction false} FlowFirst(t: string, k: nat, tree: F.FlowTree, sep: string)
    requires F.TreeOk(tree) && (tree.Sequence? || tree.Mapping?) && Reads(t, k, F.TreeText(tree, sep))
    ensures F.TreeText(tree, sep) != "" && !BlankOrBreak(Ch(t, k))
  {
    hide F.ItemsText, F.EntriesText, F.ItemsOk, F.EntriesOk;
    ReadsFirst(t, k, F.TreeText(tree, sep));
  }

  lemma ItemsSplit(items: seq<Item>, column: nat)
    requires items != [] && ItemsOk(items)
    ensures ItemOk(items[0]) && ItemsOk(items[1..])
    ensures |items| == 1 ==> ItemsText(items, column) == ItemText(items[0], column)
    ensures |items| > 1 ==>
      && FillOk(items[1].fill)
      && ItemsText(items, column)
         == ItemText(items[0], column) + ((items[1].fill + Blank(column)) + ItemsText(items[1..], column))
    ensures ItemsTokens(items, column) == ItemTokens(items[0], column) + ItemsTokens(items[1..], column)
    ensures ItemsLevels(items) >= ItemLevels(items[0]) && ItemsLevels(items) >= ItemsLevels(items[1..])
    ensures ItemsFit(items, column) ==> ItemFits(items[0], column) && ItemsFit(items[1..], column)
  {
    hide ItemText, ItemTokens, ItemFits, FillOk, SlotOk;
    if |items| > 1 { assert items[1..][0] == items[1] && ItemOk(items[1]); }
  }

  lemma ItemFirst(t: string, k: nat, items: seq<Item>, column: nat)
    requires items != [] && ItemsOk(items) && Reads(t, k, ItemsText(items, column))
    ensures Ch(t, k) == '-' && ItemsText(items, column) != ""
  {
    hide SlotText, SlotOk;
    ItemsSplit(items, column);
    assert ItemText(items[0], column)[0] == '-';
    ReadsFirst(t, k, ItemsText(items, column));
  }

  lemma MembersSplit(members: seq<Member>, column: nat)
    requires members != [] && MembersOk(members)
    ensures MemberOk(members[0]) && MembersOk(members[1..])
    ensures |members| == 1 ==> MembersText(members, column) == MemberText(members[0], column)
    ensures |members| > 1 ==>
      && FillOk(members[1].fill)
      && MembersText(members, column)
         == MemberText(members[0], column) + ((members[1].fill + Blank(column)) + MembersText(members[1..], column))
    ensures MembersTokens(members, column) == MemberTokens(members[0], column) + MembersTokens(members[1..], column)
    ensures MembersLevels(members) >= MemberLevels(members[0]) && MembersLevels(members) >= MembersLevels(members[1..])
    ensures MembersFit(members, column) ==> MemberFits(members[0], column) && MembersFit(members[1..], column)
  {
    hide MemberText, MemberTokens, MemberFits, FillOk, SlotOk, KeyOk;
    if |members| > 1 { assert members[1..][0] == members[1] && MemberOk(members[1]); }
  }

  lemma {:induction false} MembersFirst(t: string, k: nat, members: seq<Member>, column: nat)
    requires members != [] && MembersOk(members) && Reads(t, k, MembersText(members, column))
    ensures !BlankOrBreak(Ch(t, k)) && MembersText(members, column) != ""
  {
    hide SlotText, SlotOk, ScalarText, ScalarOk;
    MembersSplit(members, column);
    var x := members[0];
    var rest := (x.space + ":") + SlotText(x.slot, column + KeyWidth(x));
    assert MemberText(x, column) == ScalarText(x.key) + rest;
    if |members| == 1 {
      ReadsPart(t, k, ScalarText(x.key), rest);
    } else {
      ReadsPart(t, k, MemberText(x, column), (members[1].fill + Blank(column)) + MembersText(members[1..], column));
      ReadsPart(t, k, ScalarText(x.key), rest);
    }
    ScalarFirst(t, k, x.key);
  }

  // ---------- the induction ----------

  /** What reading a node has done: its tokens are there, but for block ends that are still due. */
  ghost predicate Done(t: string, sc: State, sc1: State, read: seq<Token>, k: nat, tail: string) {
    Pending(sc1, sc, read) && Past(t, sc1, k, tail) && IdleKey(sc1) && sc1.parsed == sc.parsed
  }

  lemma {:induction false} NodeRead(t: string, f: State -> Fetched, sc: State, m: Mark, allowed: bool, b: Block,
                                    level: bool, tail: string)
    returns (n: nat, sc1: State)
    requires Fetches(t, f) && Here(t, sc, m, allowed) && sc.keys == [None]
    requires BlockOk(b) && Fits(b, level, sc.indent, m.column) && (Inline(b) || allowed)
    requires |sc.indents| + Levels(b) <= MAX_INDENTS
    requires Reads(t, m.index, BlockText(b, m.column)) && Ends(t, m.index + |BlockText(b, m.column)|, tail, sc.indent)
    ensures Run(f, sc, n) == Ok(sc1)
    ensures Done(t, sc, sc1, BlockTokens(b, sc.indent, m.column), m.index + |BlockText(b, m.column)|, tail)
    decreases b
  {
    hide Run, Fetches, Here, Settle, ScalarText, ScalarOk, Deep, TokenOf, Ends, Reads, ItemsText, MembersText,
      ItemsTokens, MembersTokens, ItemsFit, MembersFit, ItemsOk, MembersOk, Past, ItemsLevels, MembersLevels,
      F.TreeText, F.TreeOk, F.SyntaxOf, G.SynTokens, F.Height, Gap, Tabless;
    var c := m.column;
    match b {
      case Leaf(s) =>
        sc1 := LeafRead(t, f, sc, m, allowed, s, tail);
        n := 1;
        RunOne(f, sc, sc1);
        LeafDone(sc, sc1, m, allowed, TokenOf(s));
      case Flow(tree, sep) =>
        n, sc1 := FlowLeafRead(t, f, sc, m, allowed, tree, sep, tail);
      case List(items) =>
        EndsInside(t, m.index + |BlockText(b, c)|, tail, sc.indent, c);
        n, sc1 := ItemsRead(t, f, sc, m, items, tail);
        PastFacts(t, sc1, m.index + |BlockText(b, c)|, tail);
        if c > sc.indent {
          SD.ClosesOne(sc, sc1, c, BlockSequenceStartToken, ItemsTokens(items, c));
        }
      case Dict(members) =>
        EndsInside(t, m.index + |BlockText(b, c)|, tail, sc.indent, c);
        n, sc1 := MembersRead(t, f, sc, m, members, tail);
        PastFacts(t, sc1, m.index + |BlockText(b, c)|, tail);
        SD.ClosesOne(sc, sc1, c, BlockMappingStartToken, MembersTokens(members, c));
    }
  }

  lemma PastFacts(t: string, sc: State, k: nat, tail: string)
    requires Past(t, sc, k, tail)
    ensures sc.flow == 0
  {
  }

  lemma LeafDone(sc: State, sc1: State, m: Mark, allowed: bool, token: Token)
    requires Taken(sc, sc1, m, allowed, token) && sc.keys == [None] && m.column > sc.indent
    ensures Pending(sc1, sc, [token]) && IdleKey(sc1) && sc1.parsed == sc.parsed
  {
  }

  /** A flow collection as a node of a block. */
  lemma {:induction false} FlowLeafRead(t: string, f: State -> Fetched, sc: State, m: Mark, allowed: bool,
                                        tree: F.FlowTree, sep: string, tail: string)
    returns (n: nat, sc1: State)
    requires Fetches(t, f) && Here(t, sc, m, allowed) && sc.keys == [None] && m.column > sc.indent
    requires BlockOk(Flow(tree, sep)) && Reads(t, m.index, F.TreeText(tree, sep))
    requires Ends(t, m.index + |F.TreeText(tree, sep)|, tail, sc.indent)
    ensures Run(f, sc, n) == Ok(sc1)
    ensures Done(t, sc, sc1, G.SynTokens(F.SyntaxOf(tree)), m.index + |F.TreeText(tree, sep)|, tail)
  {
    hide Run, Fetches, Settle, Reads, FlowText.Follow, F.Pieces, F.TreeText, F.TreeOk, F.SyntaxOf, G.SynTokens,
      F.Height, Gap, Tabless, PiecesText, PiecesTokens, AllOk, NoTabsIn, Ends;
    var ps := F.Pieces(tree, sep);
    var spot := Spot(0, if allowed then Fresh else Expected, true);
    F.TreeFollows(spot, tree, sep, []);
    assert ps + [] == ps;
    F.TreeSpelled(tree, sep);
    F.SomePieces(tree, sep);
    F.PiecesTabless(tree, sep);
    assert AtPiece(t, sc, m.index, spot) by { HereIsPiece(t, sc, m, allowed); }
    n, sc1 := PiecesRead(t, f, sc, m.index, spot, ps);
    FlowDone(t, sc, sc1, PiecesTokens(ps), tail);
  }

  lemma HereIsPiece(t: string, sc: State, m: Mark, allowed: bool)
    requires Here(t, sc, m, allowed) && sc.keys == [None] && m.column > sc.indent
    ensures AtPiece(t, sc, m.index, Spot(0, if allowed then Fresh else Expected, true))
  {
    hide Settle;
  }

  lemma FlowDone(t: string, sc: State, sc1: State, read: seq<Token>, tail: string)
    requires FlowText.Closed(sc1, sc1.mark.index) && FlowText.Same(sc, sc1) && sc1.tokens == sc.tokens + read
    requires Ends(t, sc1.mark.index, tail, sc.indent)
    ensures Done(t, sc, sc1, read, sc1.mark.index, tail)
  {
    hide Settle;
    TailPassed(t, sc1.mark, false, tail);
  }

  /** What is behind a '-' or ':'. */
  lemma {:induction false} SlotRead(t: string, f: State -> Fetched, sc: State, s: Slot, level: bool, tail: string)
    returns (n: nat, sc1: State)
    requires Fetches(t, f) && sc.started && sc.flow == 0 && sc.keys == [None] && sc.parsed <= |sc.tokens|
    requires sc.indent >= 0
    requires SlotOk(s) && SlotFits(s, level, sc.indent, sc.mark.column)
    requires s.Filled? && !Inline(s.node) ==> sc.keyAllowed || s.lead.Next?
    requires |sc.indents| + SlotLevels(s) <= MAX_INDENTS
    requires Reads(t, sc.mark.index, SlotText(s, sc.mark.column))
    requires Ends(t, sc.mark.index + |SlotText(s, sc.mark.column)|, tail, sc.indent)
    ensures Run(f, sc, n) == Ok(sc1)
    ensures Done(t, sc, sc1, SlotTokens(s, sc.indent, sc.mark.column),
                 sc.mark.index + |SlotText(s, sc.mark.column)|, tail)
    decreases s
  {
    hide Fetches, Settle, Fits, BlockText, BlockTokens, LeadText, LeadOk, Reads, Ends, UnrollIndent;
    match s {
      case Empty =>
        n, sc1 := 0, sc;
        NothingDone(t, f, sc, tail);
      case Filled(lead, node) =>
        var c := ColumnOf(lead, sc.mark.column);
        ReadsPart(t, sc.mark.index, LeadText(lead), BlockText(node, c));
        BlockFirst(t, sc.mark.index + |LeadText(lead)|, node, c);
        LeadPassed(t, sc.mark, sc.keyAllowed, lead);
        var (m, allowed) := Settle(t, sc.mark, 0, sc.keyAllowed);
        n, sc1 := NodeRead(t, f, sc, m, allowed, node, level, tail);
    }
  }

  lemma NothingDone(t: string, f: State -> Fetched, sc: State, tail: string)
    requires sc.started && sc.flow == 0 && sc.keys == [None] && sc.parsed <= |sc.tokens|
    requires Ends(t, sc.mark.index, tail, sc.indent)
    ensures Run(f, sc, 0) == Ok(sc) && Done(t, sc, sc, [], sc.mark.index, tail)
  {
    hide Settle;
    TailPassed(t, sc.mark, sc.keyAllowed, tail);
    assert sc.tokens + [] == sc.tokens;
  }

  /** Behind a '-' or ':' comes a blank, a line break or the end. */
  lemma {:induction false} SlotBegins(t: string, k: nat, s: Slot, column: nat, tail: string, parent: int)
    requires SlotOk(s) && Reads(t, k, SlotText(s, column)) && Ends(t, k + |SlotText(s, column)|, tail, parent)
    ensures IsBlankz(Ch(t, k))
  {
    hide BlockText, LeadText, LeadOk, BlockOk;
    match s
    case Empty => TailFirst(t, k, tail, parent);
    case Filled(lead, node) =>
      ReadsPart(t, k, LeadText(lead), BlockText(node, ColumnOf(lead, column)));
      LeadFirst(t, k, lead);
  }

  lemma {:induction false} ItemRead(t: string, f: State -> Fetched, sc: State, m: Mark, x: Item, tail: string)
    returns (n: nat, sc1: State)
    requires Fetches(t, f) && Here(t, sc, m, true) && IdleKey(sc) && sc.indent <= m.column
    requires ItemOk(x) && ItemFits(x, m.column)
    requires |sc.indents| + (if sc.indent < m.column then 1 else 0) + ItemLevels(x) <= MAX_INDENTS
    requires Reads(t, m.index, ItemText(x, m.column)) && Ends(t, m.index + |ItemText(x, m.column)|, tail, m.column)
    ensures n > 0 && Run(f, sc, n) == Ok(sc1)
    ensures Done(t, Rolled(sc, m.column, BlockSequenceStartToken), sc1, ItemTokens(x, m.column),
                 m.index + |ItemText(x, m.column)|, tail)
    decreases x
  {
    hide Run, Fetches, Here, Settle, SlotText, SlotTokens, SlotFits, SlotOk, SlotLevels, Reads, Ends, Past, FillOk;
    var c := m.column;
    var base := Rolled(sc, c, BlockSequenceStartToken);
    ReadsPart(t, m.index, "-", SlotText(x.slot, c + 1));
    ReadsFirst(t, m.index, "-");
    SlotBegins(t, m.index + 1, x.slot, c + 1, tail, c);
    DashFetched(t, f, sc, m);
    assert sc.started && sc.flow == 0 && sc.parsed <= |sc.tokens| by { HereFacts(t, sc, m, true); }
    var mid := DashedState(sc, c, Skip(m));
    var k;
    k, sc1 := SlotRead(t, f, mid, x.slot, false, tail);
    n := 1 + k;
    RunOne(f, sc, mid);
    RunGoesOn(f, sc, 1, mid, mid, k, sc1);
    SD.PendingAfter(sc1, mid, base, [BlockEntryToken], SlotTokens(x.slot, c, c + 1));
  }

  lemma HereFacts(t: string, sc: State, m: Mark, allowed: bool)
    requires Here(t, sc, m, allowed)
    ensures sc.started && sc.flow == 0 && |sc.keys| == 1 && sc.parsed <= |sc.tokens|
  {
  }

  /** The tokens of one part, and then of the others: everything is pending on the same base. */
  lemma JoinDone(t: string, sc1: State, base: State, a: seq<Token>, c: State, sc2: State, b: seq<Token>, k: nat,
                 tail: string)
    requires c == BlockScanClosed(sc1, base, a) && Done(t, c, sc2, b, k, tail) && sc1.parsed == base.parsed
    ensures Done(t, base, sc2, a + b, k, tail)
  {
    hide Past, UnrollIndent;
    assert base.tokens + a + b == base.tokens + (a + b);
  }

  /** sc1 with the blocks inside `base` closed. */
  ghost function BlockScanClosed(sc1: State, base: State, read: seq<Token>): State {
    ScanSteps.Closed(sc1, base, read)
  }

  /** Past one part, the next begins on a line of its own in the column of the block. */
  lemma NextHere(t: string, f: State -> Fetched, sc1: State, base: State, read: seq<Token>, k: nat, fill: string)
    returns (m: Mark)
    requires Fetches(t, f) && base.indent >= 0 && base.parsed <= |base.tokens|
    requires FillOk(fill) && Reads(t, k, fill + Blank(base.indent))
    requires !BlankOrBreak(Ch(t, k + |fill| + base.indent))
    requires Done(t, base, sc1, read, k, fill + Blank(base.indent))
    ensures var c := BlockScanClosed(sc1, base, read);
      && f(sc1) == f(c) && Here(t, c, m, true) && IdleKey(c)
      && m.index == k + |fill| + base.indent && m.column == base.indent
  {
    hide Settle, UnrollIndent;
    FillEnds(t, k, fill, base.indent);
    var next := Settle(t, sc1.mark, 0, sc1.keyAllowed);
    m := next.0;
    assert Settled(t, sc1).mark == m;
    ClosesFirst(t, f, sc1, base, read);
  }

  lemma {:induction false} ItemsRead(t: string, f: State -> Fetched, sc: State, m: Mark, items: seq<Item>, tail: string)
    returns (n: nat, sc1: State)
    requires Fetches(t, f) && Here(t, sc, m, true) && IdleKey(sc) && sc.indent <= m.column
    requires items != [] && ItemsOk(items) && ItemsFit(items, m.column)
    requires |sc.indents| + (if sc.indent < m.column then 1 else 0) + ItemsLevels(items) <= MAX_INDENTS
    requires Reads(t, m.index, ItemsText(items, m.column))
    requires Ends(t, m.index + |ItemsText(items, m.column)|, tail, m.column)
    ensures n > 0 && Run(f, sc, n) == Ok(sc1)
    ensures Done(t, Rolled(sc, m.column, BlockSequenceStartToken), sc1, ItemsTokens(items, m.column),
                 m.index + |ItemsText(items, m.column)|, tail)
    decreases items
  {
    hide Run, Fetches, Settle, ItemText, ItemTokens, ItemFits, ItemOk, ItemLevels, ItemsText, ItemsTokens, ItemsFit,
      ItemsOk, Reads, Ends, Past, FillOk, UnrollIndent, Pending;
    var c := m.column;
    var base := Rolled(sc, c, BlockSequenceStartToken);
    ItemsSplit(items, c);
    if |items| == 1 {
      n, sc1 := ItemRead(t, f, sc, m, items[0], tail);
      OneItem(items, c);
    } else {
      var rest, fill := items[1..], items[1].fill;
      var k := m.index + |ItemText(items[0], c)|;
      ReadsPart(t, m.index, ItemText(items[0], c), (fill + Blank(c)) + ItemsText(rest, c));
      ReadsPart(t, k, fill + Blank(c), ItemsText(rest, c));
      ItemFirst(t, k + |fill| + c, rest, c);
      FillEnds(t, k, fill, c);
      var a, mid := ItemRead(t, f, sc, m, items[0], fill + Blank(c));
      var m1 := NextHere(t, f, mid, base, ItemTokens(items[0], c), k, fill);
      var cl := BlockScanClosed(mid, base, ItemTokens(items[0], c));
      var d;
      d, sc1 := ItemsRead(t, f, cl, m1, rest, tail);
      n := a + d;
      RunGoesOn(f, sc, a, mid, cl, d, sc1);
      JoinDone(t, mid, base, ItemTokens(items[0], c), cl, sc1, ItemsTokens(rest, c), m.index + |ItemsText(items, c)|,
               tail);
    }
  }

  lemma OneItem(items: seq<Item>, column: nat)
    requires |items| == 1 && ItemsOk(items)
    ensures ItemsTokens(items, column) == ItemTokens(items[0], column)
  {
    hide ItemTokens;
    assert items[1..] == [] && ItemsTokens([], column) == [];
  }

  lemma OneMember(members: seq<Member>, column: nat)
    requires |members| == 1 && MembersOk(members)
    ensures MembersTokens(members, column) == MemberTokens(members[0], column)
  {
    hide MemberTokens;
    assert members[1..] == [] && MembersTokens([], column) == [];
  }

  lemma {:induction false} MemberRead(t: string, f: State -> Fetched, sc: State, m: Mark, x: Member, tail: string)
    returns (n: nat, sc1: State)
    requires Fetches(t, f) && Here(t, sc, m, true) && IdleKey(sc) && sc.indent <= m.column
    requires MemberOk(x) && MemberFits(x, m.column)
    requires |sc.indents| + (if sc.indent < m.column then 1 else 0) + MemberLevels(x) <= MAX_INDENTS
    requires Reads(t, m.index, MemberText(x, m.column)) && Ends(t, m.index + |MemberText(x, m.column)|, tail, m.column)
    ensures n > 0 && Run(f, sc, n) == Ok(sc1)
    ensures Done(t, Rolled(sc, m.column, BlockMappingStartToken), sc1, MemberTokens(x, m.column),
                 m.index + |MemberText(x, m.column)|, tail)
    decreases x
  {
    hide Run, Fetches, Here, Settle, SlotText, SlotTokens, SlotFits, SlotOk, SlotLevels, Reads, Ends, Past, FillOk,
      ScalarText, ScalarOk, TokenOf, OneLine;
    var c, w := m.column, KeyWidth(x);
    var base := Rolled(sc, c, BlockMappingStartToken);
    var key := ScalarText(x.key) + (x.space + ":");
    assert |key| == w;
    ReadsPart(t, m.index, key, SlotText(x.slot, c + w));
    SlotBegins(t, m.index + w, x.slot, c + w, tail, c);
    var mid := KeyFetched(t, f, sc, m, x.key, x.space);
    assert sc.started && sc.flow == 0 && sc.parsed <= |sc.tokens| by { HereFacts(t, sc, m, true); }
    var k;
    k, sc1 := SlotRead(t, f, mid, x.slot, true, tail);
    n := 2 + k;
    RunGoesOn(f, sc, 2, mid, mid, k, sc1);
    SD.PendingAfter(sc1, mid, base, [KeyToken, TokenOf(x.key), ValueToken], SlotTokens(x.slot, c, c + w));
  }

  lemma {:induction false} MembersRead(t: string, f: State -> Fetched, sc: State, m: Mark, members: seq<Member>,
                                       tail: string)
    returns (n: nat, sc1: State)
    requires Fetches(t, f) && Here(t, sc, m, true) && IdleKey(sc) && sc.indent <= m.column
    requires members != [] && MembersOk(members) && MembersFit(members, m.column)
    requires |sc.indents| + (if sc.indent < m.column then 1 else 0) + MembersLevels(members) <= MAX_INDENTS
    requires Reads(t, m.index, MembersText(members, m.column))
    requires Ends(t, m.index + |MembersText(members, m.column)|, tail, m.column)
    ensures n > 0 && Run(f, sc, n) == Ok(sc1)
    ensures Done(t, Rolled(sc, m.column, BlockMappingStartToken), sc1, MembersTokens(members, m.column),
                 m.index + |MembersText(members, m.column)|, tail)
    decreases members
  {
    hide Run, Fetches, Settle, MemberText, MemberTokens, MemberFits, MemberOk, MemberLevels, MembersText,
      MembersTokens, MembersFit, MembersOk, Reads, Ends, Past, FillOk, UnrollIndent, Pending;
    var c := m.column;
    var base := Rolled(sc, c, BlockMappingStartToken);
    MembersSplit(members, c);
    if |members| == 1 {
      n, sc1 := MemberRead(t, f, sc, m, members[0], tail);
      OneMember(members, c);
    } else {
      var rest, fill := members[1..], members[1].fill;
      var k := m.index + |MemberText(members[0], c)|;
      ReadsPart(t, m.index, MemberText(members[0], c), (fill + Blank(c)) + MembersText(rest, c));
      ReadsPart(t, k, fill + Blank(c), MembersText(rest, c));
      MembersFirst(t, k + |fill| + c, rest, c);
      FillEnds(t, k, fill, c);
      var a, mid := MemberRead(t, f, sc, m, members[0], fill + Blank(c));
      var m1 := NextHere(t, f, mid, base, MemberTokens(members[0], c), k, fill);
      var cl := BlockScanClosed(mid, base, MemberTokens(members[0], c));
      var d;
      d, sc1 := MembersRead(t, f, cl, m1, rest, tail);
      n := a + d;
      RunGoesOn(f, sc, a, mid, cl, d, sc1);
      JoinDone(t, mid, base, MemberTokens(members[0], c), cl, sc1, MembersTokens(rest, c),
               m.index + |MembersText(members, c)|, tail);
    }
  }

  // ---------- the whole stream ----------

  /** What stands in front of the root: blank lines; or directives, "---" and what separates it from the root. */
  datatype Front = Plainly(lead: string) | Marked(lines: seq<Line>, lead: string)

  predicate HeadFits(head: Front, b: Block) {
    && TailOk(head.lead)
    && (head.Marked? ==> LinesOk(head.lines) && head.lead != "" && (Inline(b) || BreakIn(head.lead)))
  }

  function HeadString(head: Front): string
    requires head.Marked? ==> LinesOk(head.lines)
  {
    match head
    case Plainly(lead) => lead
    case Marked(lines, lead) => LinesText(lines) + ("---" + lead)
  }

  function HeadTokensOf(head: Front): seq<Token>
    requires head.Marked? ==> LinesOk(head.lines)
  {
    if head.Marked? then LinesTokens(head.lines) + [DocumentStartToken] else []
  }

  /** The column that the root begins in; behind "---" on its line it is further to the right. */
  function RootColumn(head: Front): nat {
    if head.Marked? && !BreakIn(head.lead) then 3 + |head.lead| else Behind(head.lead)
  }

  function DocumentText(head: Front, b: Block, tail: string): string
    requires (head.Marked? ==> LinesOk(head.lines)) && BlockOk(b)
  {
    HeadString(head) + (BlockText(b, RootColumn(head)) + tail)
  }

  lemma LeadReached(t: string, m: Mark, allowed: bool, lead: string)
    requires TailOk(lead) && Reads(t, m.index, lead) && !BlankOrBreak(Ch(t, m.index + |lead|))
    ensures var (next, a) := Settle(t, m, 0, allowed);
      && next.index == m.index + |lead| && a == (allowed || BreakIn(lead))
      && next.column == if BreakIn(lead) then Behind(lead) else m.column + |lead|
  {
    TailPassed(t, m, allowed, lead);
  }

  /** "---" at the beginning of a line. */
  lemma MarkerRead(t: string, f: State -> Fetched, sc: State, k: nat, lead: string) returns (sc1: State)
    requires Fetches(t, f) && AtLine(sc, k) && TailOk(lead) && lead != "" && Reads(t, k, "---" + lead)
    ensures f(sc) == Ok(sc1)
    ensures sc1 == sc.(tokens := sc.tokens + [DocumentStartToken], keyAllowed := false, mark := Advance(sc.mark, 3))
  {
    hide Dispatch;
    ReadsPart(t, k, "---", lead);
    ReadsFirst(t, k, "---");
    assert Ch(t, k + 2) == "---"[2];
    ReadsFirst(t, k + 3, lead);
    LineNext(t, f, sc, k);
    assert Dispatch(t, sc) == FetchDocumentIndicator(sc, DocumentStartToken) by { DashesDispatch(t, sc); }
    assert sc.keys[0 := None] == [None];
    sc1 := f(sc).value;
  }

  /** The scanner is at the root, with nothing open. */
  ghost predicate AtRoot(t: string, sc: State, m: Mark, allowed: bool, tokens: seq<Token>) {
    && Here(t, sc, m, allowed) && sc.keys == [None] && sc.indent == -1 && sc.indents == [] && sc.parsed == 0
    && sc.tokens == tokens
  }

  lemma {:induction false} HeadPassed(t: string, f: State -> Fetched, head: Front, b: Block)
    returns (n: nat, sc: State, m: Mark, allowed: bool)
    requires Fetches(t, f) && HeadFits(head, b) && Reads(t, 0, HeadString(head))
    requires !BlankOrBreak(Ch(t, |HeadString(head)|))
    ensures n > 0 && Run(f, StartState, n) == Ok(sc)
    ensures AtRoot(t, sc, m, allowed, [StreamStartToken] + HeadTokensOf(head))
    ensures m.index == |HeadString(head)| && m.column == RootColumn(head) && (Inline(b) || allowed)
  {
    hide LinesText, LinesTokens, LinesOk, Run, Settle, Fetches;
    var begun := FetchStreamStart(StartState);
    StartFetched(t, f);
    RunOne(f, StartState, begun);
    match head {
      case Plainly(lead) =>
        n, sc := 1, begun;
        LeadReached(t, begun.mark, true, lead);
        NoBreaks(lead);
      case Marked(lines, lead) =>
        ReadsPart(t, 0, LinesText(lines), "---" + lead);
        var k := |LinesText(lines)|;
        var mid := LinesRead(t, f, begun, 0, lines);
        sc := MarkerRead(t, f, mid, k, lead);
        ReadsPart(t, k, "---", lead);
        assert |HeadString(head)| == k + 3 + |lead|;
        LeadReached(t, sc.mark, false, lead);
        RunOne(f, mid, sc);
        RunGoesOn(f, StartState, 1, begun, begun, |lines|, mid);
        RunGoesOn(f, StartState, 1 + |lines|, mid, mid, 1, sc);
        n := 1 + |lines| + 1;
        assert [StreamStartToken] + LinesTokens(lines) + [DocumentStartToken]
            == [StreamStartToken] + HeadTokensOf(head);
    }
    var end := Settle(t, sc.mark, 0, sc.keyAllowed);
    m, allowed := end.0, end.1;
  }

  lemma StartFetched(t: string, f: State -> Fetched)
    requires Fetches(t, f)
    ensures f(StartState) == Ok(FetchStreamStart(StartState))
  {
    FetchesNext(t, f, StartState);
  }

  /** The end, with blocks still open or not. */
  lemma EndFetched(t: string, f: State -> Fetched, sc: State, base: State, read: seq<Token>)
    requires Fetches(t, f) && Pending(sc, base, read) && base.indent == -1 && sc.started && |sc.keys| == 1
    requires IdleKey(sc)
    requires Ch(t, Settled(t, sc).mark.index) == NUL
    ensures f(sc).Ok? && f(sc).value.keys == [None]
    ensures f(sc).value.tokens == base.tokens + read + [StreamEndToken]
  {
    hide Settle, Dispatch, KeysInTime;
    var s := Settled(t, sc);
    UnrollKeeps(sc, -1, s.mark, s.keyAllowed);
    var p := Prepared(t, sc);
    UnrollOn(s);
    assert p.mark == s.mark && p.keys == sc.keys by { SS.UnrollSame(s, s.mark.column); }
    assert KeysInTime(sc) by { IdleInTime(sc); }
    FetchesNext(t, f, sc);
    AtEnd(t, p);
    EndTaken(p, ScanSteps.Closed(sc, base, read).(mark := s.mark, keyAllowed := s.keyAllowed));
  }

  lemma UnrollOn(s: State)
    ensures UnrollIndent(UnrollIndent(s, s.mark.column), -1) == UnrollIndent(s, -1)
  {
    UnrollTwice(s, s.mark.column, -1);
  }

  lemma EndTaken(p: State, c: State)
    requires UnrollIndent(p, -1) == c && |c.keys| == 1 && IdleKey(c)
    ensures FetchStreamEnd(p).Ok? && FetchStreamEnd(p).value.keys == [None]
    ensures FetchStreamEnd(p).value.tokens == c.tokens + [StreamEndToken]
  {
    var m := if p.mark.column != 0 then Mark(p.mark.index, p.mark.line + 1, 0) else p.mark;
    UnrollKeeps(p, -1, m, p.keyAllowed);
    assert c.keys[0 := None] == [None];
  }

  /**
   The text of a block tree in any layout, with directives and a document marker in front of it or not,
   is fetched as the tokens of the tree between those of the stream.
   */
  lemma {:induction false} BlockFetched(head: Front, b: Block, tail: string, f: State -> Fetched)
    returns (n: nat, done: State)
    requires HeadFits(head, b) && BlockOk(b) && TailOk(tail) && Fits(b, false, -1, RootColumn(head))
    requires Levels(b) <= MAX_INDENTS && Fetches(DocumentText(head, b, tail), f)
    ensures n > 0 && Run(f, StartState, n) == Ok(done) && done.keys == [None]
    ensures done.tokens
         == [StreamStartToken] + HeadTokensOf(head) + BlockTokens(b, -1, RootColumn(head)) + [StreamEndToken]
  {
    hide BlockText, BlockTokens, HeadString, HeadTokensOf, Fits, Levels, Run, Fetches, BlockOk, AtRoot, Reads;
    var t, c := DocumentText(head, b, tail), RootColumn(head);
    var h := |HeadString(head)|;
    assert "" + (HeadString(head) + (BlockText(b, c) + tail)) == t;
    ReadsAfter(t, "", HeadString(head) + (BlockText(b, c) + tail));
    ReadsPart(t, 0, HeadString(head), BlockText(b, c) + tail);
    ReadsPart(t, h, BlockText(b, c), tail);
    BlockFirst(t, h, b, c);
    var a, sc, m, allowed := HeadPassed(t, f, head, b);
    var tokens := [StreamStartToken] + HeadTokensOf(head);
    var k;
    k, done := RootFetched(t, f, sc, m, allowed, tokens, b, tail);
    RunGoesOn(f, StartState, a, sc, sc, k, done);
    n := a + k;
  }

  lemma {:induction false} RootFetched(t: string, f: State -> Fetched, sc: State, m: Mark, allowed: bool,
                                       tokens: seq<Token>, b: Block, tail: string)
    returns (n: nat, done: State)
    requires Fetches(t, f) && AtRoot(t, sc, m, allowed, tokens) && (Inline(b) || allowed)
    requires BlockOk(b) && TailOk(tail) && Fits(b, false, -1, m.column) && Levels(b) <= MAX_INDENTS
    requires Reads(t, m.index, BlockText(b, m.column)) && Reads(t, m.index + |BlockText(b, m.column)|, tail)
    requires |t| == m.index + |BlockText(b, m.column)| + |tail|
    ensures Run(f, sc, n) == Ok(done) && done.keys == [None]
    ensures done.tokens == tokens + BlockTokens(b, -1, m.column) + [StreamEndToken]
  {
    hide BlockText, BlockTokens, Fits, Levels, Run, Fetches, Settle, Past, Pending, BlockOk, Reads, TailOk,
      UnrollIndent;
    var e := m.index + |BlockText(b, m.column)|;
    assert Ends(t, e, tail, -1);
    var k, mid := NodeRead(t, f, sc, m, allowed, b, false, tail);
    PastIs(t, mid, e, tail);
    EndFetched(t, f, mid, sc, BlockTokens(b, -1, m.column));
    done := f(mid).value;
    RunOne(f, mid, done);
    RunGoesOn(f, sc, k, mid, mid, 1, done);
    n := k + 1;
  }

  lemma PastIs(t: string, sc: State, k: nat, tail: string)
    requires Past(t, sc, k, tail)
    ensures Settled(t, sc).mark.index == k + |tail| && sc.started && |sc.keys| == 1
  {
  }
}
