/**
 One fetched token at a time: the scanner's mark follows the pen, and the blocks it closes
 lazily are accounted for.
 */
module ScanSteps {
  import opened Chars
  import opened Pens
  import opened Analysis
  import opened ScalarWriters
  import opened ScalarScan
  import opened Options
  import opened Resolve
  import opened Tokens
  import opened Layout
  import opened Scanner
  import opened DoubleRoundTrip
  import opened SingleRoundTrip
  import opened PlainRoundTrip
  import opened LayoutTokens

  // ---------- where the scanner is ----------

  /** The scanner is about to read what the pen wrote after p. */
  ghost predicate At(t: string, sc: State, p: Pen, allowed: bool) {
    && sc.started && sc.flow == 0 && |sc.keys| == 1
    && Settle(t, sc.mark, 0, sc.keyAllowed) == Settle(t, MarkOf(p), 0, allowed)
  }

  ghost predicate IdleKey(sc: State) {
    sc.keys != [] && (sc.keys[0].Some? ==> !sc.keys[0].value.required)
  }

  lemma {:induction false} SettleSpaces(t: string, m: Mark, n: nat, allowed: bool)
    requires Reads(t, m.index, Spaces(n))
    ensures Settle(t, m, 0, allowed) == Settle(t, Advance(m, n), 0, allowed)
    decreases n
  {
    if n == 0 {
      assert Advance(m, 0) == m;
    } else {
      ReadsFirst(t, m.index, Spaces(n));
      assert Spaces(n)[1..] == Spaces(n - 1);
      SettleSpaces(t, Skip(m), n - 1, allowed);
      assert Advance(Skip(m), n - 1) == Advance(m, n);
    }
  }

  lemma {:induction false} SettleForward(t: string, m: Mark, flow: nat, allowed: bool)
    ensures Onward(m, Settle(t, m, flow, allowed).0)
    decreases Left(t, m)
  {
    var c := Ch(t, m.index);
    if c == ' ' || (c == '\t' && (flow > 0 || !allowed)) {
      SettleForward(t, Skip(m), flow, allowed);
    } else if IsBreak(c) {
      SettleForward(t, SkipLine(t, m), flow, allowed || flow == 0);
    }
  }

  lemma SettleLine(t: string, m: Mark, n: nat, allowed: bool)
    requires Ch(t, m.index) == '\n' && Reads(t, m.index + 1, Spaces(n))
    ensures Settle(t, m, 0, allowed) == Settle(t, Advance(SkipLine(t, m), n), 0, true)
  {
    SettleSpaces(t, SkipLine(t, m), n, true);
  }

  lemma SettleIndent(t: string, p: Pen, indent: int, allowed: bool)
    requires WriteIndent(p, indent).out <= t
    ensures Settle(t, MarkOf(p), 0, allowed)
         == Settle(t, MarkOf(WriteIndent(p, indent)), 0, allowed || BreaksLine(p, Margin(indent)))
  {
    var n := Margin(indent);
    var q := WriteIndent(p, indent);
    if BreaksLine(p, n) {
      assert q.out == p.out + ("\n" + Spaces(n));
      ReadsAfter(t, p.out, "\n" + Spaces(n));
      ReadsPart(t, |p.out|, "\n", Spaces(n));
      ReadsFirst(t, |p.out|, "\n");
      SettleLine(t, MarkOf(p), n, allowed);
      assert Advance(SkipLine(t, MarkOf(p)), n) == MarkOf(q);
    } else {
      ReadsAfter(t, p.out, Spaces(n - p.column));
      SettleSpaces(t, MarkOf(p), n - p.column, allowed);
      assert Advance(MarkOf(p), n - p.column) == MarkOf(q);
    }
  }

  lemma SettleScalar(t: string, p: Pen, allowed: bool)
    requires ScalarAt(p).out <= t
    ensures Settle(t, MarkOf(p), 0, allowed) == Settle(t, MarkOf(ScalarAt(p)), 0, allowed)
  {
    if !p.whitespace {
      SpaceWritten(t, p);
    }
  }

  // Proofs about many tokens take the fetching of one as a function value: they need what it
  // does to the states they meet, not its definition.

  /** A ':' that is to end a simple key comes right after the key's token. */
  ghost predicate KeyIsLast(t: string, sc: State) {
    var last := |sc.keys| - 1;
    (ValueNext(t, sc) && sc.keys != [] && sc.keys[last].Some? && KeyValid(sc, sc.keys[last].value)) ==>
      sc.keys[last].value.number + 1 == |sc.tokens|
  }

  ghost predicate ValueNext(t: string, sc: State) {
    Ch(t, sc.mark.index) == ':' && (sc.flow > 0 || IsBlankz(Ch(t, sc.mark.index + 1)))
  }

  /** No token that has to be a key is too far back for one. */
  predicate KeysInTime(sc: State) {
    forall i :: 0 <= i < |sc.keys| && sc.keys[i].Some? && sc.keys[i].value.required ==> KeyValid(sc, sc.keys[i].value)
  }

  /** FetchNext, as long as no token is put further ahead than before the last one. */
  ghost function FetchClose(t: string, sc: State): Fetched {
    if !KeysInTime(sc) || (sc.started && !KeyIsLast(t, Prepared(t, sc))) then Err(NotModelled) else FetchNext(t, sc)
  }

  ghost function Fetcher(t: string): State -> Fetched {
    (sc: State) => FetchClose(t, sc)
  }

  ghost predicate Fetches(t: string, f: State -> Fetched) {
    forall s {:trigger FetchClose(t, s)} :: f(s) == FetchClose(t, s)
  }

  lemma IdleInTime(sc: State)
    requires IdleKey(sc) && |sc.keys| == 1
    ensures KeysInTime(sc)
  {
  }

  lemma FetchesNext(t: string, f: State -> Fetched, sc: State)
    requires Fetches(t, f) && KeysInTime(sc) && (sc.started ==> KeyIsLast(t, Prepared(t, sc)))
    ensures f(sc) == FetchNext(t, sc)
  {
    assert f(sc) == FetchClose(t, sc);
  }

  ghost function Run(f: State -> Fetched, sc: State, n: nat): Fetched
    decreases n
  {
    if n == 0 then Ok(sc)
    else
      match f(sc)
      case Err(e) => Err(e)
      case Ok(sc1) => Run(f, sc1, n - 1)
  }

  lemma {:induction false} RunIsFetchMany(t: string, f: State -> Fetched, sc: State, n: nat)
    requires Fetches(t, f) && Run(f, sc, n).Ok?
    ensures Run(f, sc, n) == FetchMany(t, sc, n)
    decreases n
  {
    if n > 0 {
      assert f(sc) == FetchClose(t, sc);
      RunIsFetchMany(t, f, FetchNext(t, sc).value, n - 1);
    }
  }

  /** The state in which the token at the pen q is dispatched, no block being deeper. */
  ghost function Ready(sc: State, q: Pen, allowed: bool): State {
    sc.(mark := MarkOf(q), keyAllowed := allowed)
  }

  lemma FetchAt(t: string, f: State -> Fetched, sc: State, p: Pen, allowed: bool, q: Pen, allowed': bool)
    requires Fetches(t, f) && KeysInTime(sc) && KeyIsLast(t, Ready(sc, q, allowed'))
    requires At(t, sc, p, allowed)
    requires Settle(t, MarkOf(p), 0, allowed) == Settle(t, MarkOf(q), 0, allowed')
    requires !BlankOrBreak(Ch(t, |q.out|)) && q.column >= sc.indent
    ensures f(sc) == Dispatch(t, Ready(sc, q, allowed'))
  {
    hide Dispatch, KeyIsLast, KeysInTime;
    assert Prepared(t, sc) == Ready(sc, q, allowed');
    FetchesNext(t, f, sc);
  }

  // ---------- closing blocks ----------

  lemma {:induction false} UnrollTwice(sc: State, a: int, b: int)
    requires b <= a
    ensures UnrollIndent(UnrollIndent(sc, a), b) == UnrollIndent(sc, b)
    decreases |sc.indents|
  {
    if !(sc.flow > 0 || sc.indent <= a || sc.indents == []) {
      var last := |sc.indents| - 1;
      UnrollTwice(AppendToken(sc, BlockEndToken).(indent := sc.indents[last], indents := sc.indents[..last]), a, b);
    }
  }

  lemma {:induction false} UnrollKeeps(sc: State, column: int, m: Mark, allowed: bool)
    ensures UnrollIndent(sc.(mark := m, keyAllowed := allowed), column)
         == UnrollIndent(sc, column).(mark := m, keyAllowed := allowed)
    decreases |sc.indents|
  {
    if !(sc.flow > 0 || sc.indent <= column || sc.indents == []) {
      var last := |sc.indents| - 1;
      UnrollKeeps(AppendToken(sc, BlockEndToken).(indent := sc.indents[last], indents := sc.indents[..last]),
                  column, m, allowed);
    }
  }

  /**
   sc has read `read` more than `base`; blocks deeper than `base`'s are still open, but the
   next token in a column not deeper than `base`'s closes them first.
   */
  ghost predicate Pending(sc: State, base: State, read: seq<Token>) {
    UnrollIndent(sc, base.indent)
      == sc.(indent := base.indent, indents := base.indents, tokens := base.tokens + read)
  }

  ghost function Closed(sc: State, base: State, read: seq<Token>): State {
    sc.(indent := base.indent, indents := base.indents, tokens := base.tokens + read)
  }

  lemma ClosesFirst(t: string, f: State -> Fetched, sc: State, base: State, read: seq<Token>)
    requires Fetches(t, f)
    requires Pending(sc, base, read) && sc.started
    requires Settled(t, sc).mark.column <= base.indent
    ensures f(sc) == f(Closed(sc, base, read))
  {
    var c := Closed(sc, base, read);
    assert f(sc) == FetchClose(t, sc) && f(c) == FetchClose(t, c);
    var m := Settled(t, sc).mark;
    var allowed := Settled(t, sc).keyAllowed;
    UnrollTwice(sc, base.indent, m.column);
    UnrollKeeps(sc, m.column, m, allowed);
    UnrollKeeps(c, m.column, m, allowed);
  }

  lemma {:induction false} RunsCompose(f: State -> Fetched, sc: State, a: nat, b: nat, sc1: State)
    requires Run(f, sc, a) == Ok(sc1)
    ensures Run(f, sc, a + b) == Run(f, sc1, b)
    decreases a
  {
    if a > 0 {
      RunsCompose(f, f(sc).value, a - 1, b, sc1);
    }
  }

  lemma RunOne(f: State -> Fetched, sc: State, sc1: State)
    requires f(sc) == Ok(sc1)
    ensures Run(f, sc, 1) == Ok(sc1)
  {
    assert Run(f, sc1, 0) == Ok(sc1);
  }

  lemma RunTwo(f: State -> Fetched, sc: State, mid: State, sc1: State)
    requires f(sc) == Ok(mid) && f(mid) == Ok(sc1)
    ensures Run(f, sc, 2) == Ok(sc1)
  {
    RunOne(f, mid, sc1);
  }

  /** A run goes on from a state that f takes for the one reached. */
  lemma RunGoesOn(f: State -> Fetched, sc: State, k: nat, mid: State, c: State, n: nat, sc1: State)
    requires Run(f, sc, k) == Ok(mid)
    requires c == mid || (f(c) == f(mid) && n > 0)
    requires Run(f, c, n) == Ok(sc1)
    ensures Run(f, sc, k + n) == Ok(sc1)
  {
    RunsCompose(f, sc, k, n, mid);
  }

  // ---------- single tokens ----------

  lemma DispatchIndicator(t: string, sc: State)
    requires sc.flow == 0 && IsBlankz(Ch(t, sc.mark.index + 1))
    ensures Ch(t, sc.mark.index) == '-' ==> Dispatch(t, sc) == FetchBlockEntry(sc)
    ensures Ch(t, sc.mark.index) == '?' ==> Dispatch(t, sc) == FetchKey(sc)
    ensures Ch(t, sc.mark.index) == ':' ==> Dispatch(t, sc) == FetchValue(sc)
  {
    hide FetchStreamEnd, FetchDirective, FetchDocumentIndicator, FetchFlowStart, FetchFlowEnd, FetchFlowEntry,
      FetchBlockEntry, FetchKey, FetchValue, FetchAnchor, FetchTag, FetchFlowScalar, FetchPlainScalar, StartsPlain;
  }

  lemma DispatchFlow(t: string, sc: State)
    ensures Ch(t, sc.mark.index) == '[' ==> Dispatch(t, sc) == FetchFlowStart(sc, FlowSequenceStartToken)
    ensures Ch(t, sc.mark.index) == '{' ==> Dispatch(t, sc) == FetchFlowStart(sc, FlowMappingStartToken)
    ensures Ch(t, sc.mark.index) == ']' ==> Dispatch(t, sc) == FetchFlowEnd(sc, FlowSequenceEndToken)
    ensures Ch(t, sc.mark.index) == '}' ==> Dispatch(t, sc) == FetchFlowEnd(sc, FlowMappingEndToken)
  {
    hide FetchStreamEnd, FetchDirective, FetchDocumentIndicator, FetchFlowStart, FetchFlowEnd, FetchFlowEntry,
      FetchBlockEntry, FetchKey, FetchValue, FetchAnchor, FetchTag, FetchFlowScalar, FetchPlainScalar, StartsPlain;
  }

  lemma DispatchQuoted(t: string, sc: State)
    ensures Ch(t, sc.mark.index) == '\'' ==> Dispatch(t, sc) == FetchFlowScalar(t, sc, true)
    ensures Ch(t, sc.mark.index) == '"' ==> Dispatch(t, sc) == FetchFlowScalar(t, sc, false)
  {
    hide FetchStreamEnd, FetchDirective, FetchDocumentIndicator, FetchFlowStart, FetchFlowEnd, FetchFlowEntry,
      FetchBlockEntry, FetchKey, FetchValue, FetchAnchor, FetchTag, FetchFlowScalar, FetchPlainScalar, StartsPlain;
  }

  /** The indicator written after an indentation stands there in the text. */
  lemma IndicatorText(t: string, q: Pen, c: char)
    requires q.whitespace
    requires WriteIndicator(q, [c], true, false, true).out <= t
    ensures Ch(t, |q.out|) == c
    ensures |WriteIndicator(q, [c], true, false, true).out| == |q.out| + 1
    ensures MarkOf(WriteIndicator(q, [c], true, false, true)) == Skip(MarkOf(q))
  {
    assert WriteIndicator(q, [c], true, false, true).out == q.out + [c];
    ReadsAfter(t, q.out, [c]);
    ReadsFirst(t, |q.out|, [c]);
  }

  /** The block begun in this column, if there is none yet. */
  ghost function Rolled(sc: State, column: int, token: Token): State {
    if sc.indent < column
    then sc.(indents := sc.indents + [sc.indent], indent := column, tokens := sc.tokens + [token])
    else sc
  }

  ghost function DashState(sc: State, ind: int, d: Pen): State {
    var r := Rolled(sc, ind, BlockSequenceStartToken);
    r.(tokens := r.tokens + [BlockEntryToken], keys := [None], keyAllowed := true, mark := MarkOf(d))
  }

  lemma DashRead(t: string, f: State -> Fetched, sc: State, p: Pen, ind: int, allowed: bool)
    requires Fetches(t, f)
    requires At(t, sc, p, allowed) && IdleKey(sc) && 0 <= ind && sc.indent <= ind
    requires BreaksLine(p, ind) || allowed
    requires DashPen(p, ind).out <= t && IsBlankz(Ch(t, |DashPen(p, ind).out|))
    requires sc.indent < ind ==> |sc.indents| < MAX_INDENTS
    ensures f(sc) == Ok(DashState(sc, ind, DashPen(p, ind)))
  {
    hide KeysInTime, Fetches, Dispatch, Settle, UnrollIndent;
    var q := WriteIndent(p, ind);
    IndicatorText(t, q, '-');
    SettleIndent(t, p, ind, allowed);
    IdleInTime(sc);
    FetchAt(t, f, sc, p, allowed, q, true);
    var r := Ready(sc, q, true);
    DispatchIndicator(t, r);
    assert sc.keys[0 := None] == [None];
  }

  ghost function QuestionPen(p: Pen, ind: int): Pen {
    WriteIndicator(WriteIndent(p, ind), "?", true, false, true)
  }

  ghost function QuestionState(sc: State, ind: int, d: Pen): State {
    var r := Rolled(sc, ind, BlockMappingStartToken);
    r.(tokens := r.tokens + [KeyToken], keys := [None], keyAllowed := true, mark := MarkOf(d))
  }

  lemma QuestionRead(t: string, f: State -> Fetched, sc: State, p: Pen, ind: int, allowed: bool)
    requires Fetches(t, f)
    requires At(t, sc, p, allowed) && IdleKey(sc) && 0 <= ind && sc.indent <= ind
    requires BreaksLine(p, ind) || allowed
    requires QuestionPen(p, ind).out <= t && IsBlankz(Ch(t, |QuestionPen(p, ind).out|))
    requires sc.indent < ind ==> |sc.indents| < MAX_INDENTS
    ensures f(sc) == Ok(QuestionState(sc, ind, QuestionPen(p, ind)))
  {
    hide KeysInTime, Fetches, Dispatch, Settle, UnrollIndent;
    var q := WriteIndent(p, ind);
    IndicatorText(t, q, '?');
    SettleIndent(t, p, ind, allowed);
    IdleInTime(sc);
    FetchAt(t, f, sc, p, allowed, q, true);
    var r := Ready(sc, q, true);
    DispatchIndicator(t, r);
    assert sc.keys[0 := None] == [None];
  }

  /** The ':' of a complex key stands on a line of its own, in the column of the mapping. */
  lemma ComplexColonRead(t: string, f: State -> Fetched, sc: State, p: Pen, ind: int)
    requires Fetches(t, f)
    requires At(t, sc, p, false) && IdleKey(sc) && sc.indent == ind >= 0 && !p.indention
    requires sc.keys[0].Some? ==> sc.keys[0].value.mark.line <= p.line
    requires var c := WriteIndicator(WriteIndent(p, ind), ":", true, false, true);
      c.out <= t && IsBlankz(Ch(t, |c.out|))
    ensures var c := WriteIndicator(WriteIndent(p, ind), ":", true, false, true);
      f(sc) == Ok(sc.(tokens := sc.tokens + [ValueToken], keys := [None],
                                 keyAllowed := true, mark := MarkOf(c)))
  {
    hide UnrollIndent, FetchNext, Settle, Settled, StartsPlain;
    var q := WriteIndent(p, ind);
    IndicatorText(t, q, ':');
    SettleIndent(t, p, ind, false);
    FetchAt(t, f, sc, p, false, q, true);
    var r := Ready(sc, q, true);
    DispatchIndicator(t, r);
    assert sc.keys[0 := None] == [None];
  }

  /** What a key on one line may hold back: its KEY token, and the start of the mapping. */
  ghost function KeyedTokens(sc: State, column: int, key: Token): seq<Token> {
    var start := if sc.indent < column then [BlockMappingStartToken] else [];
    start + [KeyToken, key, ValueToken]
  }

  /** The ':' directly behind a simple key is the next thing fetched. */
  lemma ColonFetched(t: string, f: State -> Fetched, sc: State, p: Pen, at: Pen)
    requires Fetches(t, f)
    requires At(t, sc, p, false) && sc.keys[0].Some? && sc.keys[0].value.mark == MarkOf(at)
    requires sc.keys[0].value.number + 1 == |sc.tokens| && sc.parsed < |sc.tokens|
    requires at.line == p.line && |p.out| <= |at.out| + 1024
    requires p.column >= sc.indent
    requires p.out + ":" <= t && IsBlankz(Ch(t, |p.out| + 1))
    ensures f(sc) == FetchValue(Ready(sc, p, false))
    ensures KeyValid(Ready(sc, p, false), sc.keys[0].value)
  {
    hide FetchValue, UnrollIndent;
    ReadsAfter(t, p.out, ":");
    ReadsFirst(t, |p.out|, ":");
    assert Settle(t, MarkOf(p), 0, false) == (MarkOf(p), false);
    SettleForward(t, sc.mark, 0, sc.keyAllowed);
    FetchAt(t, f, sc, p, false, p, false);
    DispatchIndicator(t, Ready(sc, p, false));
  }

  /** KEY and, if the key opens a block, BLOCK-MAPPING-START are put before the key's token. */
  lemma ColonInserted(r: State, before: seq<Token>, key: Token, column: int)
    requires r.flow == 0 && |r.keys| == 1 && r.parsed <= |before|
    requires r.tokens == before + [key] && r.keys[0].Some?
    requires r.keys[0].value.number == |before| && r.keys[0].value.mark.column == column
    requires KeyValid(r, r.keys[0].value)
    requires r.indent < column ==> |r.indents| < MAX_INDENTS
    ensures var q := Rolled(r, column, BlockMappingStartToken);
      FetchValue(r) == Ok(q.(tokens := before + KeyedTokens(r, column, key), keys := [None],
                             keyAllowed := false, mark := Skip(r.mark)))
  {
    hide UnrollIndent;
    assert r.keys[0 := None] == [None];
    InsertBeforeLast(r, before, [key], KeyToken);
    var s1 := r.(tokens := before + [KeyToken, key]);
    var s2 := s1.(indents := s1.indents + [s1.indent], indent := column);
    InsertBeforeLast(s2, before, [KeyToken, key], BlockMappingStartToken);
    assert InsertToken(r, |before| - r.parsed, KeyToken) == s1 by {
      assert before + [KeyToken] + [key] == before + [KeyToken, key];
    }
    assert before + [BlockMappingStartToken] + [KeyToken, key] + [ValueToken]
        == before + ([BlockMappingStartToken] + [KeyToken, key, ValueToken]);
    assert before + [KeyToken, key] + [ValueToken] == before + ([] + [KeyToken, key, ValueToken]);
  }

  /** The ':' of a simple key, with the key's token the last one so far. */
  lemma SimpleColonRead(t: string, f: State -> Fetched, sc: State, p: Pen, before: seq<Token>, key: Token, at: Pen)
    requires Fetches(t, f)
    requires At(t, sc, p, false) && sc.parsed <= |before|
    requires sc.tokens == before + [key] && sc.keys[0].Some?
    requires sc.keys[0].value.number == |before| && sc.keys[0].value.mark == MarkOf(at)
    requires at.line == p.line && |p.out| <= |at.out| + 1024
    requires p.column >= sc.indent && at.column >= 0
    requires p.out + ":" <= t && IsBlankz(Ch(t, |p.out| + 1))
    requires sc.indent < at.column ==> |sc.indents| < MAX_INDENTS
    ensures var c := WriteIndicator(p, ":", false, false, false);
      var r := Rolled(sc, at.column, BlockMappingStartToken);
      f(sc) == Ok(r.(tokens := before + KeyedTokens(sc, at.column, key), keys := [None],
                                keyAllowed := false, mark := MarkOf(c)))
  {
    hide FetchValue, Fetches, UnrollIndent, Settle;
    ColonFetched(t, f, sc, p, at);
    ColonInserted(Ready(sc, p, false), before, key, at.column);
  }

  lemma InsertBeforeLast(sc: State, before: seq<Token>, after: seq<Token>, token: Token)
    requires sc.tokens == before + after && sc.parsed <= |before|
    ensures InsertToken(sc, |before| - sc.parsed, token) == sc.(tokens := before + [token] + after)
    ensures before + [token] + after == before + ([token] + after)
  {
    assert sc.tokens[..|before|] == before && sc.tokens[|before|..] == after;
  }

  // ---------- scalars and empty collections ----------

  ghost function SavedKeys(sc: State, at: Pen, allowed: bool): seq<Option<SimpleKey>> {
    if allowed then [Some(SimpleKey(sc.indent == at.column, |sc.tokens|, MarkOf(at)))] else sc.keys
  }

  lemma KeyIsSaved(sc: State, at: Pen, allowed: bool)
    requires sc.flow == 0 && |sc.keys| == 1 && IdleKey(sc)
    ensures SaveKey(Ready(sc, at, allowed)) == Ok(Ready(sc, at, allowed).(keys := SavedKeys(sc, at, allowed)))
  {
    assert sc.keys[0 := None] == [None];
    var k := Some(SimpleKey(sc.indent == at.column, |sc.tokens|, MarkOf(at)));
    assert [None][0 := k] == [k];
  }

  /** The state after a scalar token, apart from where its scan stopped. */
  ghost predicate ScalarTaken(sc: State, sc1: State, at: Pen, allowed: bool, token: Token) {
    sc1 == sc.(tokens := sc.tokens + [token], keys := SavedKeys(sc, at, allowed),
               mark := sc1.mark, keyAllowed := sc1.keyAllowed)
  }

  /** The text goes on after q as it may after a scalar in a block indented by `parent`. */
  ghost predicate Stops(t: string, q: Pen, parent: int, n: nat, leading: bool) {
    StopsAt(t, MarkOf(q), parent, n,
            if leading then Advance(SkipLine(t, MarkOf(q)), n) else MarkOf(q), leading)
  }

  lemma StopsAtQuote(t: string, q: Pen, parent: int, n: nat, leading: bool)
    requires Stops(t, q, parent, n, leading)
    ensures Ch(t, |q.out|) != '\''
  {
  }

  lemma QuotedRead(t: string, f: State -> Fetched, sc: State, p: Pen, v: string, single: bool, allow: bool,
                   indent: int, cfg: Config, allowed: bool, n: nat, leading: bool) returns (sc1: State)
    requires Fetches(t, f)
    requires At(t, sc, p, allowed) && IdleKey(sc)
    requires indent >= 1 && ScalarAt(p).column >= sc.indent
    requires single ==> SingleQuotedAllowed(v, cfg)
    requires var q := if single then WriteSingle(p, v, allow, indent, cfg)
                      else WriteDouble(p, v, allow, indent, cfg);
      q.out <= t && Stops(t, q, sc.indent, n, leading)
    ensures f(sc) == Ok(sc1)
    ensures ScalarTaken(sc, sc1, ScalarAt(p), allowed,
                        ScalarToken(v, if single then SingleQuoted else DoubleQuoted))
    ensures At(t, sc1, if single then WriteSingle(p, v, allow, indent, cfg)
                       else WriteDouble(p, v, allow, indent, cfg), false)
  {
    var q := if single then WriteSingle(p, v, allow, indent, cfg)
             else WriteDouble(p, v, allow, indent, cfg);
    StopsAtQuote(t, q, sc.indent, n, leading);
    QuotedGrows(p, v, single, allow, indent, cfg);
    SettleScalar(t, p, allowed);
    if single {
      SingleQuotedReadBack(t, p, v, allow, indent, cfg);
    } else {
      DoubleQuotedReadBack(t, p, v, allow, indent, cfg);
    }
    FetchAt(t, f, sc, p, allowed, ScalarAt(p), allowed);
    DispatchQuoted(t, Ready(sc, ScalarAt(p), allowed));
    KeyIsSaved(sc, ScalarAt(p), allowed);
    sc1 := sc.(tokens := sc.tokens + [ScalarToken(v, if single then SingleQuoted else DoubleQuoted)],
               keys := SavedKeys(sc, ScalarAt(p), allowed), mark := MarkOf(q), keyAllowed := false);
  }

  lemma QuotedGrows(p: Pen, v: string, single: bool, allow: bool, indent: int, cfg: Config)
    ensures single ==> ScalarAt(p).out <= WriteSingle(p, v, allow, indent, cfg).out
    ensures !single ==> ScalarAt(p).out <= WriteDouble(p, v, allow, indent, cfg).out
  {
    if single {
      SingleGrows(WriteIndicator(p, "'", true, false, false), v, 0, false, false, allow, indent, cfg);
    } else {
      DoubleGrows(WriteIndicator(p, "\"", true, false, false), v, 0, false, allow, indent, cfg);
    }
  }

  /** Where the plain scanner stopped looks the same to the next token as the scalar's end. */
  lemma StopSettles(t: string, q: Pen, parent: int, n: nat, leading: bool)
    requires Stops(t, q, parent, n, leading)
    ensures var next := if leading then Advance(SkipLine(t, MarkOf(q)), n) else MarkOf(q);
      Settle(t, next, 0, leading) == Settle(t, MarkOf(q), 0, false)
  {
    if leading {
      SettleLine(t, MarkOf(q), n, false);
    }
  }

  lemma PlainDispatched(t: string, sc: State, v: string, cfg: Config)
    requires v != "" && BlockPlainAllowed(v, cfg) && sc.flow == 0
    requires Ch(t, sc.mark.index) == v[0] && !DocIndicatorAt(t, sc.mark)
    requires |v| > 1 && v[1] != ' ' ==> Ch(t, sc.mark.index + 1) == v[1]
    ensures Dispatch(t, sc) == FetchPlainScalar(t, sc) && !ValueNext(t, sc)
  {
    hide FetchStreamEnd, FetchDirective, FetchDocumentIndicator, FetchFlowStart, FetchFlowEnd, FetchFlowEntry,
      FetchBlockEntry, FetchKey, FetchValue, FetchAnchor, FetchTag, FetchFlowScalar, FetchPlainScalar,
      BlockPlainAllowed;
    PlainStart(v, cfg);
  }

  lemma PlainStart(v: string, cfg: Config)
    requires v != "" && BlockPlainAllowed(v, cfg)
    ensures v[0] !in "#,[]{}&*!|>'\"%@`" && !IsBlankz(v[0]) && v[0] != NUL
    ensures v[0] in "?:-" ==> |v| > 1 && !IsBlankz(v[1])
  {
    assert SingleFits(v, 0, cfg) && !BlockIndicatorAt(v, 0);
    if |v| > 1 {
      assert SingleFits(v, 1, cfg);
    }
  }

  lemma PlainRead(t: string, f: State -> Fetched, sc: State, p: Pen, v: string, root: bool, allow: bool,
                  indent: int, cfg: Config, allowed: bool, n: nat, leading: bool) returns (sc1: State)
    requires Fetches(t, f)
    requires At(t, sc, p, allowed) && IdleKey(sc)
    requires indent >= 1 && indent > sc.indent && ScalarAt(p).column >= sc.indent
    requires v != "" && BlockPlainAllowed(v, cfg)
    requires WritePlain(p, v, root, allow, indent, cfg).out <= t
    requires Stops(t, WritePlain(p, v, root, allow, indent, cfg), sc.indent, n, leading)
    ensures f(sc) == Ok(sc1)
    ensures ScalarTaken(sc, sc1, ScalarAt(p), allowed, ScalarToken(v, Plain))
    ensures At(t, sc1, WritePlain(p, v, root, allow, indent, cfg), false)
  {
    var q := WritePlain(p, v, root, allow, indent, cfg);
    var next := if leading then Advance(SkipLine(t, MarkOf(q)), n) else MarkOf(q);
    PlainGrows(ScalarAt(p), v, 0, false, false, allow, indent, cfg);
    SettleScalar(t, p, allowed);
    PlainReadBack(t, p, v, root, allow, indent, cfg, sc.indent, n, next, leading);
    PlainStart(v, cfg);
    PlainDispatched(t, Ready(sc, ScalarAt(p), allowed), v, cfg);
    FetchAt(t, f, sc, p, allowed, ScalarAt(p), allowed);
    KeyIsSaved(sc, ScalarAt(p), allowed);
    StopSettles(t, q, sc.indent, n, leading);
    sc1 := sc.(tokens := sc.tokens + [ScalarToken(v, Plain)],
               keys := SavedKeys(sc, ScalarAt(p), allowed), mark := next, keyAllowed := leading);
  }

  /** A scalar in the style chosen for it. */
  lemma ScalarRead(t: string, f: State -> Fetched, sc: State, p: Pen, v: string, requested: Style, place: Place,
                   simpleKey: bool, indent: int, cfg: Config,
                   allowed: bool, n: nat, leading: bool) returns (sc1: State)
    requires Fetches(t, f)
    requires ValidConfig(cfg) && At(t, sc, p, allowed) && IdleKey(sc)
    requires sc.indent <= indent && ScalarAt(p).column >= sc.indent
    requires requested == Plain ==> v != ""
    requires EmitScalar(p, v, requested, place, simpleKey, indent, cfg).out <= t
    requires Stops(t, EmitScalar(p, v, requested, place, simpleKey, indent, cfg), sc.indent, n, leading)
    ensures f(sc) == Ok(sc1)
    ensures ScalarTaken(sc, sc1, ScalarAt(p), allowed,
                        ScalarToken(v, SelectStyle(requested, v, simpleKey, false, cfg)))
    ensures At(t, sc1, EmitScalar(p, v, requested, place, simpleKey, indent, cfg), false)
  {
    var ind := IncreaseIndent(indent, true, place == InList, cfg);
    IndentGrows(indent, true, place == InList, cfg);
    match SelectStyle(requested, v, simpleKey, false, cfg)
    case Plain =>
      sc1 := PlainRead(t, f, sc, p, v, place == Root, !simpleKey, ind, cfg, allowed, n, leading);
    case SingleQuoted =>
      sc1 := QuotedRead(t, f, sc, p, v, true, !simpleKey, ind, cfg, allowed, n, leading);
    case DoubleQuoted =>
      sc1 := QuotedRead(t, f, sc, p, v, false, !simpleKey, ind, cfg, allowed, n, leading);
  }

  /** "[]" and "{}": two tokens; the first may have been taken for a key. */
  function EmptyText(isMap: bool): string {
    if isMap then "{}" else "[]"
  }

  function EmptyPen(p: Pen, isMap: bool): Pen {
    if isMap then EmitEmpty(p, "{", "}") else EmitEmpty(p, "[", "]")
  }

  function OpenToken(isMap: bool): Token {
    if isMap then FlowMappingStartToken else FlowSequenceStartToken
  }

  function CloseToken(isMap: bool): Token {
    if isMap then FlowMappingEndToken else FlowSequenceEndToken
  }

  lemma EmptyPenText(t: string, p: Pen, isMap: bool)
    requires EmptyPen(p, isMap).out <= t
    ensures EmptyPen(p, isMap).out == ScalarAt(p).out + EmptyText(isMap)
    ensures MarkOf(EmptyPen(p, isMap)) == Advance(MarkOf(ScalarAt(p)), 2)
    ensures Reads(t, |ScalarAt(p).out|, EmptyText(isMap)) && ScalarAt(p).out <= t
  {
    ReadsAfter(t, ScalarAt(p).out, EmptyText(isMap));
  }

  lemma OpenRead(t: string, sc: State, at: Pen, allowed: bool, isMap: bool)
    requires sc.flow == 0 && |sc.keys| == 1 && IdleKey(sc)
    requires Ch(t, |at.out|) == EmptyText(isMap)[0]
    ensures var keys := SavedKeys(sc, at, allowed);
      Dispatch(t, Ready(sc, at, allowed))
        == Ok(sc.(tokens := sc.tokens + [OpenToken(isMap)], keys := keys + [None], flow := 1,
                  keyAllowed := true, mark := Skip(MarkOf(at))))
  {
    DispatchFlow(t, Ready(sc, at, allowed));
    KeyIsSaved(sc, at, allowed);
  }

  lemma CloseRead(t: string, f: State -> Fetched, sc: State, keys: seq<Option<SimpleKey>>, isMap: bool)
    requires Fetches(t, f)
    requires sc.started && sc.flow == 1 && sc.keys == keys + [None] && KeysInTime(sc)
    requires Ch(t, sc.mark.index) == EmptyText(isMap)[1]
    ensures f(sc)
         == Ok(sc.(tokens := sc.tokens + [CloseToken(isMap)], keys := keys, flow := 0,
                   keyAllowed := false, mark := Skip(sc.mark)))
  {
    assert Settled(t, sc) == sc;
    assert Prepared(t, sc) == sc;
    FetchesNext(t, f, sc);
    DispatchFlow(t, sc);
    assert sc.keys[|sc.keys| - 1 := None] == sc.keys;
    assert sc.keys[..|sc.keys| - 1] == keys;
  }

  /** A key whose bracket has just been passed is in time. */
  lemma OpenInTime(sc: State, at: Pen, allowed: bool, mid: State)
    requires IdleKey(sc) && |sc.keys| == 1
    requires mid.keys == SavedKeys(sc, at, allowed) + [None] && mid.mark == Skip(MarkOf(at))
    ensures KeysInTime(mid)
  {
  }

  lemma EmptyRead(t: string, f: State -> Fetched, sc: State, p: Pen, isMap: bool, allowed: bool) returns (sc1: State)
    requires Fetches(t, f)
    requires At(t, sc, p, allowed) && IdleKey(sc) && ScalarAt(p).column >= sc.indent
    requires EmptyPen(p, isMap).out <= t
    ensures Run(f, sc, 2) == Ok(sc1)
    ensures sc1 == sc.(tokens := sc.tokens + [OpenToken(isMap), CloseToken(isMap)],
                       keys := SavedKeys(sc, ScalarAt(p), allowed),
                       mark := MarkOf(EmptyPen(p, isMap)), keyAllowed := false)
  {
    hide Dispatch, FetchNext, UnrollIndent, Settle, Settled, WriteIndicator, Run, SavedKeys, IdleKey;
    var q := ScalarAt(p);
    EmptyPenText(t, p, isMap);
    ReadsFirst(t, |q.out|, EmptyText(isMap));
    SettleScalar(t, p, allowed);
    IdleInTime(sc);
    FetchAt(t, f, sc, p, allowed, q, allowed);
    OpenRead(t, sc, q, allowed, isMap);
    var mid := f(sc).value;
    OpenInTime(sc, q, allowed, mid);
    CloseRead(t, f, mid, SavedKeys(sc, q, allowed), isMap);
    sc1 := f(mid).value;
    assert sc.tokens + [OpenToken(isMap)] + [CloseToken(isMap)]
        == sc.tokens + [OpenToken(isMap), CloseToken(isMap)];
    RunTwo(f, sc, mid, sc1);
  }
}
