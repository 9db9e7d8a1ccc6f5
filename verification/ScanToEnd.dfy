/**
 Scanning a text to its end: every token fetched takes the scanner on, so that it comes to
 STREAM-END on any text, or to an error; and behind STREAM-END there is nothing else.
 */
module ScanToEnd {
  import opened Chars
  import opened ScalarScan
  import opened Options
  import opened Tokens
  import opened Layout
  import opened LayoutTokens
  import opened Scanner
  import opened ScanStream
  import opened ScanInvariant
  import NameScan
  import ScanSteps

  predicate Ended(sc: State) {
    sc.tokens != [] && sc.tokens[|sc.tokens| - 1].StreamEndToken?
  }

  /** Fetches tokens up to STREAM-END. */
  function FetchToEnd(t: string, sc: State): Fetched
    decreases Left(t, sc.mark), if sc.started then 0 else 1
  {
    match FetchNext(t, sc)
    case Err(e) => Err(e)
    case Ok(sc1) =>
      FetchAdvances(t, sc);
      if Ended(sc1) then Ok(sc1) else FetchToEnd(t, sc1)
  }

  // ---------- scalars take the scanner on ----------

  lemma FlowTopForward(t: string, single: bool, m: Mark, s: string)
    ensures var r := FlowTop(t, single, m, s); r.FlowOk? ==> Beyond(m, r.end)
    decreases Left(t, m), 3
  {
    hide ReadEscape, DocIndicatorAt;
    if !DocIndicatorAt(t, m) && Ch(t, m.index) != NUL { FlowCharsForward(t, single, m, s); }
  }

  lemma FlowCharsForward(t: string, single: bool, m: Mark, s: string)
    ensures var r := FlowChars(t, single, m, s); r.FlowOk? ==> Beyond(m, r.end)
    decreases Left(t, m), 2
  {
    hide FlowBlanks;
    var c, next := Ch(t, m.index), Ch(t, m.index + 1);
    if c == NUL {
    } else if BlankOrBreak(c) {
      FlowBlanksForward(t, single, m, s, "", "", "", false);
    } else if single && c == '\'' && next == '\'' {
      FlowCharsForward(t, single, Skip(Skip(m)), s + "'");
    } else if AtQuote(t, single, m) {
    } else if !single && c == '\\' && IsBreak(next) {
      var m' := SkipLine(t, Skip(m));
      if !AtQuote(t, single, m') { FlowBlanksForward(t, single, m', s, "", "", "", true); }
    } else if !single && c == '\\' {
      match ReadEscape(t, m.index)
      case BadEscape(_, _) =>
      case Escape(x, n) => FlowCharsForward(t, single, Advance(m, n), s + [x]);
    } else {
      FlowCharsForward(t, single, Skip(m), s + [c]);
    }
  }

  lemma FlowBlanksForward(t: string, single: bool, m: Mark, s: string,
                          ws: string, lead: string, trail: string, leading: bool)
    ensures var r := FlowBlanks(t, single, m, s, ws, lead, trail, leading); r.FlowOk? ==> Beyond(m, r.end)
    decreases Left(t, m), if BlankOrBreak(Ch(t, m.index)) then 1 else 4
  {
    hide FlowTop;
    var c := Ch(t, m.index);
    if IsBlank(c) {
      FlowBlanksForward(t, single, Skip(m), s, if leading then ws else ws + [c], lead, trail, leading);
    } else if IsBreak(c) {
      if leading {
        FlowBlanksForward(t, single, SkipLine(t, m), s, ws, lead, trail + BreakText(c), true);
      } else {
        FlowBlanksForward(t, single, SkipLine(t, m), s, "", lead + BreakText(c), trail, true);
      }
    } else {
      FlowTopForward(t, single, m, s + Join(ws, lead, trail, leading));
    }
  }

  lemma PlainTopForward(t: string, flow: nat, indent: int, m: Mark, s: string, end: Mark,
                        ws: string, lead: string, trail: string, leading: bool)
    ensures var r := PlainTop(t, flow, indent, m, s, end, ws, lead, trail, leading);
      r.PlainOk? ==> Onward(m, r.next)
    decreases Left(t, m), 3
  {
    hide PlainChars, DocIndicatorAt;
    if !(DocIndicatorAt(t, m) || Ch(t, m.index) == '#') {
      PlainCharsForward(t, flow, indent, m, s, end, ws, lead, trail, leading);
    }
  }

  lemma PlainCharsForward(t: string, flow: nat, indent: int, m: Mark, s: string, end: Mark,
                          ws: string, lead: string, trail: string, leading: bool)
    ensures var r := PlainChars(t, flow, indent, m, s, end, ws, lead, trail, leading);
      r.PlainOk? ==> Onward(m, r.next)
    decreases Left(t, m), 2
  {
    hide PlainBlanks, EndsPlain;
    var c := Ch(t, m.index);
    if BlankOrBreak(c) {
      PlainBlanksForward(t, flow, indent, m, s, end, ws, lead, trail, leading);
    } else if !(c == NUL || EndsPlain(t, flow, m.index)) {
      PlainCharsForward(t, flow, indent, Skip(m), s + Join(ws, lead, trail, leading) + [c], Skip(m), "", "", "", false);
    }
  }

  lemma PlainBlanksForward(t: string, flow: nat, indent: int, m: Mark, s: string, end: Mark,
                           ws: string, lead: string, trail: string, leading: bool)
    ensures var r := PlainBlanks(t, flow, indent, m, s, end, ws, lead, trail, leading);
      r.PlainOk? ==> Onward(m, r.next)
    decreases Left(t, m), if BlankOrBreak(Ch(t, m.index)) then 1 else 4
  {
    hide PlainTop;
    var c := Ch(t, m.index);
    if IsBlank(c) {
      if !(leading && m.column < indent && c == '\t') {
        PlainBlanksForward(t, flow, indent, Skip(m), s, end, if leading then ws else ws + [c], lead, trail, leading);
      }
    } else if IsBreak(c) {
      if leading {
        PlainBlanksForward(t, flow, indent, SkipLine(t, m), s, end, ws, lead, trail + BreakText(c), true);
      } else {
        PlainBlanksForward(t, flow, indent, SkipLine(t, m), s, end, "", lead + BreakText(c), trail, true);
      }
    } else if !(flow == 0 && m.column < indent) {
      PlainTopForward(t, flow, indent, m, s, end, ws, lead, trail, leading);
    }
  }

  /** A character that may start a plain scalar is taken by it. */
  lemma PlainTakesFirst(t: string, flow: nat, parentIndent: int, m: Mark)
    requires StartsPlain(t, flow, m.index) && Ch(t, m.index) != NUL && !DocIndicatorAt(t, m)
    ensures var r := ScanPlain(t, flow, parentIndent, m); r.PlainOk? ==> Beyond(m, r.next)
  {
    hide PlainBlanks, DocIndicatorAt;
    var c := Ch(t, m.index);
    assert c != '#' && !BlankOrBreak(c) && !EndsPlain(t, flow, m.index);
    var s := "" + Join("", "", "", false) + [c];
    PlainCharsForward(t, flow, parentIndent + 1, Skip(m), s, Skip(m), "", "", "", false);
    assert PlainTop(t, flow, parentIndent + 1, m, "", m, "", "", "", false)
        == PlainChars(t, flow, parentIndent + 1, m, "", m, "", "", "", false);
  }

  // ---------- every fetch takes it on ----------

  /** Closing blocks changes the indentation and the tokens alone. */
  lemma {:induction false} UnrollStands(sc: State, column: int)
    ensures var u := UnrollIndent(sc, column);
      && u == sc.(indent := u.indent, indents := u.indents, tokens := u.tokens)
      && (u.flow > 0 || u.indent <= column || u.indents == [])
    decreases |sc.indents|
  {
    if !(sc.flow > 0 || sc.indent <= column || sc.indents == []) {
      var last := |sc.indents| - 1;
      UnrollStands(AppendToken(sc, BlockEndToken).(indent := sc.indents[last], indents := sc.indents[..last]), column);
    }
  }

  /** Behind the mark, and its last token is not STREAM-END. */
  predicate WentOn(sc: State, r: Fetched) {
    r.Ok? ==> r.value.started && Beyond(sc.mark, r.value.mark) && !Ended(r.value)
  }

  lemma ScalarsGoOn(t: string, sc: State, single: bool)
    requires sc.started
    ensures WentOn(sc, FetchFlowScalar(t, sc, single))
    ensures StartsPlain(t, sc.flow, sc.mark.index) && Ch(t, sc.mark.index) != NUL && !DocIndicatorAt(t, sc.mark) ==>
      WentOn(sc, FetchPlainScalar(t, sc))
  {
    hide FlowTop, ScanPlain, StartsPlain, DocIndicatorAt;
    if SaveKey(sc).Ok? {
      var sc1 := SaveKey(sc).value;
      FlowTopForward(t, single, Skip(sc1.mark), "");
      if StartsPlain(t, sc.flow, sc.mark.index) && Ch(t, sc.mark.index) != NUL && !DocIndicatorAt(t, sc.mark) {
        PlainTakesFirst(t, sc1.flow, sc1.indent, sc1.mark);
      }
    }
  }

  lemma IndicatorsGoOn(sc: State, token: Token)
    requires sc.started && !token.StreamEndToken?
    ensures WentOn(sc, FetchFlowStart(sc, token)) && WentOn(sc, FetchFlowEnd(sc, token))
    ensures WentOn(sc, FetchFlowEntry(sc)) && WentOn(sc, FetchDocumentIndicator(sc, token))
  {
    hide UnrollIndent;
    UnrollStands(sc, -1);
  }

  predicate Stands(sc: State, r: Fetched) {
    r.Ok? ==> r.value.mark == sc.mark && r.value.started == sc.started
  }

  lemma RollStands(sc: State, column: int, number: int, token: Token)
    ensures Stands(sc, RollIndent(sc, column, number, token))
  {
  }

  lemma BlocksGoOn(sc: State)
    requires sc.started
    ensures WentOn(sc, FetchBlockEntry(sc)) && WentOn(sc, FetchKey(sc))
  {
    hide RollIndent;
    RollStands(sc, sc.mark.column, -1, BlockSequenceStartToken);
    RollStands(sc, sc.mark.column, -1, BlockMappingStartToken);
  }

  lemma ValueGoesOn(sc: State)
    requires sc.started
    ensures WentOn(sc, FetchValue(sc))
  {
    hide RollIndent;
    var last := |sc.keys| - 1;
    if sc.keys != [] && sc.keys[last].Some? && KeyValid(sc, sc.keys[last].value) {
      var key := sc.keys[last].value;
      var sc1 := InsertToken(sc, key.number - sc.parsed, KeyToken);
      RollStands(sc1, key.mark.column, key.number, BlockMappingStartToken);
    } else {
      var sc0 := if sc.keys == [] then sc else sc.(keys := sc.keys[last := None]);
      RollStands(sc0, sc.mark.column, -1, BlockMappingStartToken);
    }
  }

  lemma NamesGoOn(t: string, sc: State, alias: bool)
    requires sc.started && sc.mark.index < |t|
    ensures WentOn(sc, FetchAnchor(t, sc, alias)) && WentOn(sc, FetchTag(t, sc)) && WentOn(sc, FetchDirective(t, sc))
  {
    hide UnrollIndent, NameScan.ScanAnchor, NameScan.ScanTag, NameScan.ScanDirective;
    UnrollStands(sc, -1);
  }

  lemma DispatchGoesOn(t: string, sc: State)
    requires sc.started && Ch(t, sc.mark.index) != NUL
    ensures WentOn(sc, Dispatch(t, sc))
  {
    hide FetchDocumentIndicator, FetchFlowStart, FetchFlowEnd, FetchFlowEntry, FetchBlockEntry, FetchKey, FetchValue,
      FetchFlowScalar, FetchPlainScalar, FetchAnchor, FetchTag, FetchDirective, StartsPlain, DocIndicatorAt;
    NamesGoOn(t, sc, true);
    NamesGoOn(t, sc, false);
    IndicatorsGoOn(sc, DocumentStartToken);
    IndicatorsGoOn(sc, DocumentEndToken);
    IndicatorsGoOn(sc, FlowSequenceStartToken);
    IndicatorsGoOn(sc, FlowMappingStartToken);
    IndicatorsGoOn(sc, FlowSequenceEndToken);
    IndicatorsGoOn(sc, FlowMappingEndToken);
    BlocksGoOn(sc);
    ValueGoesOn(sc);
    ScalarsGoOn(t, sc, true);
    ScalarsGoOn(t, sc, false);
  }

  // ---------- the end ----------

  /** At the end of the text, with all blocks closed and no key pending. */
  predicate AtTheEnd(t: string, sc: State) {
    && sc.started && Ended(sc) && Ch(t, sc.mark.index) == NUL && sc.mark.column == 0
    && (sc.flow > 0 || sc.indent <= -1 || sc.indents == [])
    && (sc.keys != [] ==> sc.keys[|sc.keys| - 1].None?)
    && !sc.keyAllowed
  }

  lemma StreamEndIsEnd(t: string, sc: State)
    requires sc.started && Ch(t, sc.mark.index) == NUL
    ensures var r := FetchStreamEnd(sc);
      r.Ok? ==> AtTheEnd(t, r.value) && r.value.mark.index == sc.mark.index && Onward(sc.mark, r.value.mark)
  {
    hide UnrollIndent;
    var m := if sc.mark.column != 0 then Mark(sc.mark.index, sc.mark.line + 1, 0) else sc.mark;
    UnrollStands(sc.(mark := m), -1);
  }

  lemma PreparedStands(t: string, sc: State)
    ensures Prepared(t, sc).started == sc.started && Onward(sc.mark, Prepared(t, sc).mark)
  {
    hide UnrollIndent, Settle;
    ScanSteps.SettleForward(t, sc.mark, sc.flow, sc.keyAllowed);
    UnrollStands(Settled(t, sc), Settled(t, sc).mark.column);
  }

  /** A fetched token takes the scanner on, unless it is STREAM-END at the end of the text. */
  lemma FetchAdvances(t: string, sc: State)
    ensures var r := FetchNext(t, sc);
      r.Ok? ==> r.value.started && (if !sc.started then r.value.mark == sc.mark && !Ended(r.value)
                                    else if Ended(r.value) then AtTheEnd(t, r.value)
                                    else Left(t, r.value.mark) < Left(t, sc.mark))
    ensures var r := FetchNext(t, sc); r.Ok? ==> Onward(sc.mark, r.value.mark)
  {
    hide Prepared, Dispatch, AtTheEnd, FetchStreamEnd;
    if sc.started {
      var sc1 := Prepared(t, sc);
      PreparedStands(t, sc);
      if Ch(t, sc1.mark.index) == NUL {
        assert Dispatch(t, sc1) == FetchStreamEnd(sc1) by { DispatchAtNul(t, sc1); }
        StreamEndIsEnd(t, sc1);
        if FetchStreamEnd(sc1).Ok? { TheEndHas(t, FetchStreamEnd(sc1).value); }
      } else {
        DispatchGoesOn(t, sc1);
      }
    }
  }

  lemma DispatchAtNul(t: string, sc: State)
    requires Ch(t, sc.mark.index) == NUL
    ensures Dispatch(t, sc) == FetchStreamEnd(sc)
  {
  }

  lemma TheEndHas(t: string, sc: State)
    requires AtTheEnd(t, sc)
    ensures sc.started && Ended(sc)
  {
  }

  /** There, a fetch gives one more STREAM-END. */
  lemma EndAgain(t: string, sc: State)
    requires AtTheEnd(t, sc)
    ensures FetchNext(t, sc) == Ok(AppendToken(sc, StreamEndToken)) && AtTheEnd(t, AppendToken(sc, StreamEndToken))
  {
    assert Settle(t, sc.mark, sc.flow, sc.keyAllowed) == (sc.mark, sc.keyAllowed);
    assert Settled(t, sc) == sc && Prepared(t, sc) == sc;
    assert UnrollIndent(sc, -1) == sc;
    if sc.keys != [] { assert sc.keys[|sc.keys| - 1 := None] == sc.keys; }
    DispatchAtNul(t, sc);
  }

  lemma {:induction false} EndForEver(t: string, sc: State, n: nat)
    requires AtTheEnd(t, sc)
    ensures var r := FetchMany(t, sc, n); r.Ok? && Ended(r.value) && |r.value.tokens| == |sc.tokens| + n
    ensures n > 0 ==> var ts := FetchMany(t, sc, n).value.tokens; ts[|ts| - 2].StreamEndToken?
    decreases n
  {
    hide FetchNext, AtTheEnd;
    TheEndHas(t, sc);
    if n > 0 {
      EndAgain(t, sc);
      EndForEver(t, AppendToken(sc, StreamEndToken), n - 1);
      if n == 1 { assert FetchMany(t, sc, 1) == Ok(AppendToken(sc, StreamEndToken)); }
    }
  }

  /** STREAM-END stands at the end of the tokens, once. */
  predicate EndsOnce(ts: seq<Token>) {
    |ts| >= 2 && ts[|ts| - 1].StreamEndToken? && !ts[|ts| - 2].StreamEndToken?
  }

  /** However many fetches it takes to come to a lone STREAM-END, scanning to the end stops there. */
  lemma {:induction false} StopsAtEnd(t: string, sc: State, n: nat)
    requires n > 0 && FetchMany(t, sc, n).Ok? && EndsOnce(FetchMany(t, sc, n).value.tokens)
    ensures FetchToEnd(t, sc) == FetchMany(t, sc, n)
    decreases n
  {
    hide FetchNext, AtTheEnd;
    var sc1 := FetchNext(t, sc).value;
    FetchAdvances(t, sc);
    if n == 1 {
      assert FetchMany(t, sc1, 0) == Ok(sc1);
    } else if Ended(sc1) {
      EndForEver(t, sc1, n - 1);
      assert false;
    } else {
      StopsAtEnd(t, sc1, n - 1);
    }
  }

  /** A text scanned to its end outside any flow collection has as many block ends as starts. */
  lemma {:induction false} WholeTextBalances(t: string, sc: State)
    requires Invariant(sc)
    ensures var r := FetchToEnd(t, sc);
      r.Ok? ==> Invariant(r.value) && (r.value.flow == 0 ==> r.value.indents == [] && Balance(r.value.tokens) == 0)
    decreases Left(t, sc.mark), if sc.started then 0 else 1
  {
    hide FetchNext, AtTheEnd, Balance, NeverNegative;
    FetchKeeps(t, sc);
    FetchAdvances(t, sc);
    if FetchNext(t, sc).Ok? {
      var sc1 := FetchNext(t, sc).value;
      if Ended(sc1) { EndBalances(t, sc1); } else { WholeTextBalances(t, sc1); }
    }
  }

  lemma EndBalances(t: string, sc: State)
    requires AtTheEnd(t, sc) && Invariant(sc)
    ensures sc.flow == 0 ==> sc.indents == [] && Balance(sc.tokens) == 0
  {
    if sc.flow == 0 && sc.indents != [] { LastIsAbove(sc.indents + [sc.indent]); }
  }

  /** Scanning a printed document to its end gives its tokens. */
  lemma DocumentReadToEnd(tree: Tree, env: Env)
    requires ValidEnv(env) && ValidTree(tree) && Depth(tree) <= MAX_INDENTS
    ensures var r := FetchToEnd(EmitDocument(tree, env).out, StartState);
      r.Ok? && r.value.tokens == DocumentTokens(tree, env)
  {
    hide DocumentTokens, DocumentFetches, EmitDocument, Depth, FetchMany, FetchToEnd, FetchNext, EndsOnce;
    DocumentRead(tree, env);
    DocumentEndsOnce(tree, env);
    StopsAtEnd(EmitDocument(tree, env).out, StartState, DocumentFetches(tree, env));
  }

  lemma DocumentEndsOnce(tree: Tree, env: Env)
    ensures EndsOnce(DocumentTokens(tree, env)) && DocumentFetches(tree, env) > 0
  {
    hide TreeTokens;
    TreeEndsOtherwise(tree, env);
  }

  lemma TreeEndsOtherwise(tree: Tree, env: Env)
    ensures var ts := TreeTokens(tree, env); ts != [] && !ts[|ts| - 1].StreamEndToken?
  {
  }
}
