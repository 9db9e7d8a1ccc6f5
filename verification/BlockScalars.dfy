/**
 Scalars inside blocks, plain or quoted, over one line or several, and the blank lines and
 indentation behind them: each is fetched as one token.
 */
module BlockScalars {
  import opened Chars
  import opened ScalarScan
  import opened Options
  import opened Resolve
  import opened Tokens
  import opened Scanner
  import opened ScanSteps
  import opened Spelling
  import opened Folding
  import opened FlowText
  import SD = ScanDocument

  // ---------- scalars ----------

  datatype Scalar =
    | PlainScalar(v: string, more: seq<PlainLine>)
    | QuotedScalar(single: bool, units: seq<Unit>, lines: seq<Folding.Line>)

  /** A plain scalar may begin so: with no indicator of another token, and not like a document's end. */
  predicate BeginsPlain(v: string) {
    && v != "" && v[0] !in "#,[]{}&*!|>'\"%@`" && (v[0] in "-?:" ==> |v| > 1 && v[1] != ' ')
    && !(|v| >= 3 && v[..3] in {"---", "..."} && (|v| == 3 || v[3] == ' '))
  }

  predicate ScalarOk(s: Scalar) {
    match s
    case PlainScalar(v, more) => BeginsPlain(v) && Fragment(v, 0) && PlainLinesOk(more, 0, 0)
    case QuotedScalar(single, units, lines) =>
      UnitsOk(units, single) && Folding.LinesOk(lines, single) && Continues(units, lines)
  }

  /** The further lines of a plain scalar stand further in than the block around it. */
  predicate Deep(s: Scalar, parent: int) {
    s.PlainScalar? ==> PlainLinesOk(s.more, parent + 1, 0)
  }

  predicate OneLine(s: Scalar) {
    match s
    case PlainScalar(_, more) => more == []
    case QuotedScalar(_, _, lines) => lines == []
  }

  function ScalarText(s: Scalar): string
    requires ScalarOk(s)
  {
    match s
    case PlainScalar(v, more) => v + PlainLinesText(more)
    case QuotedScalar(single, units, lines) =>
      QuoteMark(single) + (UnitsText(units, single) + (Folding.LinesText(lines, single) + QuoteMark(single)))
  }

  /** Its lines, folded together. */
  function ScalarSays(s: Scalar): string
    requires ScalarOk(s)
  {
    match s
    case PlainScalar(v, more) => v + PlainLinesValue(more, 0, 0)
    case QuotedScalar(single, units, lines) => UnitsValue(units, single) + LinesValue(lines, single)
  }

  function StyleOf(s: Scalar): Style {
    match s
    case PlainScalar(_, _) => Plain
    case QuotedScalar(single, _, _) => if single then SingleQuoted else DoubleQuoted
  }

  function TokenOf(s: Scalar): Token
    requires ScalarOk(s)
  {
    ScalarToken(ScalarSays(s), StyleOf(s))
  }

  // ---------- what comes behind ----------

  predicate BreakIn(s: string) {
    exists i :: 0 <= i < |s| && IsBreak(s[i])
  }

  /** The column that blanks and line breaks lead to: the characters behind the last break. */
  function Behind(s: string): nat {
    if s == "" || IsBreak(s[|s| - 1]) then 0 else Behind(s[..|s| - 1]) + 1
  }

  /** Spaces and line breaks, up to the end, or to something not further in than `parent`. */
  ghost predicate Ends(t: string, k: nat, tail: string, parent: int) {
    && TailOk(tail) && Reads(t, k, tail) && !BlankOrBreak(Ch(t, k + |tail|))
    && (Ch(t, k + |tail|) == NUL || (BreakIn(tail) && Behind(tail) <= parent))
  }

  /** From m the tail leads to `next`. */
  ghost predicate LeadsTo(t: string, m: Mark, tail: string, next: Mark) {
    && next.index == m.index + |tail|
    && (if BreakIn(tail) then next.line > m.line && next.column == Behind(tail) else next == Advance(m, |tail|))
  }

  lemma {:induction false} BehindFirst(s: string)
    requires s != ""
    ensures BreakIn(s) <==> IsBreak(s[0]) || BreakIn(s[1..])
    ensures BreakIn(s[1..]) ==> Behind(s) == Behind(s[1..])
    ensures IsBreak(s[0]) && !BreakIn(s[1..]) ==> Behind(s) == |s| - 1
    decreases |s|
  {
    if BreakIn(s) && !IsBreak(s[0]) {
      var i :| 0 <= i < |s| && IsBreak(s[i]);
      assert s[1..][i - 1] == s[i];
    }
    if BreakIn(s[1..]) {
      var i :| 0 <= i < |s[1..]| && IsBreak(s[1..][i]);
      assert s[i + 1] == s[1..][i];
    }
    var n := |s| - 1;
    if n > 0 && !IsBreak(s[n]) {
      var front := s[..n];
      assert front[1..] == s[1..][..n - 1] && s[1..][n - 1] == s[n];
      BehindFirst(front);
      NoneBehind(s[1..]);
      NoneBehind(front[1..]);
    }
  }

  /** A break in front of the last character that is none is one in front of it. */
  lemma NoneBehind(s: string)
    ensures s != "" && !IsBreak(s[|s| - 1]) ==> (BreakIn(s) <==> BreakIn(s[..|s| - 1]))
  {
    if s != "" && !IsBreak(s[|s| - 1]) {
      var n := |s| - 1;
      if BreakIn(s) {
        var i :| 0 <= i < |s| && IsBreak(s[i]);
        assert s[..n][i] == s[i];
      }
      if BreakIn(s[..n]) {
        var i :| 0 <= i < n && IsBreak(s[..n][i]);
        assert s[i] == s[..n][i];
      }
    }
  }

  lemma {:induction false} NoBreakBehind(s: string)
    requires !BreakIn(s)
    ensures Behind(s) == |s|
    decreases |s|
  {
    if s != "" {
      assert !IsBreak(s[|s| - 1]);
      NoneBehind(s);
      NoBreakBehind(s[..|s| - 1]);
    }
  }


  lemma {:induction false} TailPassed(t: string, m: Mark, allowed: bool, tail: string)
    requires TailOk(tail) && Reads(t, m.index, tail) && !BlankOrBreak(Ch(t, m.index + |tail|))
    ensures var (next, a) := Settle(t, m, 0, allowed); LeadsTo(t, m, tail, next) && a == (allowed || BreakIn(tail))
    decreases |tail|
  {
    if tail != "" {
      ReadsFirst(t, m.index, tail);
      BehindFirst(tail);
      NoBreaks(tail[1..]);
      if tail[0] == ' ' {
        TailPassed(t, Skip(m), allowed, tail[1..]);
      } else if tail[0] == '\r' && Ch(t, m.index + 1) == '\n' {
        assert |tail| > 1;
        ReadsFirst(t, m.index + 1, tail[1..]);
        assert tail[1..][1..] == tail[2..];
        BehindFirst(tail[1..]);
        NoBreaks(tail[2..]);
        TailPassed(t, SkipLine(t, m), true, tail[2..]);
      } else {
        TailPassed(t, SkipLine(t, m), true, tail[1..]);
      }
    }
  }

  lemma NoBreaks(s: string)
    ensures !BreakIn(s) ==> Behind(s) == |s|
  {
    if !BreakIn(s) { NoBreakBehind(s); }
  }

  /** A plain scan that has come to the tail stops behind it. */
  lemma {:induction false} PlainTail(t: string, indent: int, m: Mark, s: string, end: Mark, ws: string, lead: string,
                                     trail: string, leading: bool, tail: string) returns (next: Mark, leads: bool)
    requires TailOk(tail) && Reads(t, m.index, tail) && !BlankOrBreak(Ch(t, m.index + |tail|))
    requires Ch(t, m.index + |tail|) == NUL || ((leading || BreakIn(tail)) && PlainColumn(m, tail) < indent)
    ensures PlainBlanks(t, 0, indent, m, s, end, ws, lead, trail, leading) == PlainOk(s, end, next, leads)
    ensures LeadsTo(t, m, tail, next) && leads == (leading || BreakIn(tail))
    decreases |tail|
  {
    hide PlainBlanks;
    if tail == "" {
      next, leads := m, leading;
      TailEnds(t, indent, m, s, end, ws, lead, trail, leading);
    } else {
      ReadsFirst(t, m.index, tail);
      BehindFirst(tail);
      NoBreaks(tail[1..]);
      if tail[0] == ' ' {
        SpaceTaken(t, indent, m, s, end, ws, lead, trail, leading);
        next, leads := PlainTail(t, indent, Skip(m), s, end, if leading then ws else ws + " ", lead, trail, leading,
                                 tail[1..]);
      } else {
        var rest := BreakOff(t, m, tail);
        PlainBreakTaken(t, 0, indent, m, s, end, ws, lead, trail, leading);
        var kept := BreakText(tail[0]);
        if leading {
          next, leads := PlainTail(t, indent, SkipLine(t, m), s, end, ws, lead, trail + kept, true, rest);
        } else {
          next, leads := PlainTail(t, indent, SkipLine(t, m), s, end, "", lead + kept, trail, true, rest);
        }
      }
    }
  }

  lemma TailEnds(t: string, indent: int, m: Mark, s: string, end: Mark, ws: string, lead: string, trail: string,
                 leading: bool)
    requires !BlankOrBreak(Ch(t, m.index)) && (Ch(t, m.index) == NUL || m.column < indent)
    ensures PlainBlanks(t, 0, indent, m, s, end, ws, lead, trail, leading) == PlainOk(s, end, m, leading)
  {
    if Ch(t, m.index) == NUL {
      assert PlainChars(t, 0, indent, m, s, end, ws, lead, trail, leading) == PlainOk(s, end, m, leading);
      assert PlainTop(t, 0, indent, m, s, end, ws, lead, trail, leading) == PlainOk(s, end, m, leading);
    }
  }

  lemma SpaceTaken(t: string, indent: int, m: Mark, s: string, end: Mark, ws: string, lead: string, trail: string,
                   leading: bool)
    requires Ch(t, m.index) == ' '
    ensures PlainBlanks(t, 0, indent, m, s, end, ws, lead, trail, leading)
         == PlainBlanks(t, 0, indent, Skip(m), s, end, if leading then ws else ws + " ", lead, trail, leading)
  {
    assert ws + [' '] == ws + " ";
  }

  /** What is left of the tail behind its first break. */
  lemma BreakOff(t: string, m: Mark, tail: string) returns (rest: string)
    requires tail != "" && IsBreak(tail[0]) && TailOk(tail) && Reads(t, m.index, tail)
    requires Ch(t, m.index + |tail|) != '\n'
    ensures |rest| < |tail| && TailOk(rest) && Reads(t, SkipLine(t, m).index, rest)
    ensures SkipLine(t, m).index + |rest| == m.index + |tail| && SkipLine(t, m).column == 0
    ensures SkipLine(t, m).line > m.line
    ensures (BreakIn(rest) ==> Behind(tail) == Behind(rest)) && (!BreakIn(rest) ==> Behind(tail) == |rest|)
    ensures BreakIn(tail) && Ch(t, m.index) == tail[0] && !IsBlank(tail[0])
  {
    ReadsFirst(t, m.index, tail);
    BehindFirst(tail);
    NoBreaks(tail[1..]);
    if tail[0] == '\r' && Ch(t, m.index + 1) == '\n' && |tail| > 1 {
      rest := tail[2..];
      ReadsFirst(t, m.index + 1, tail[1..]);
      assert tail[1..][1..] == rest;
      BehindFirst(tail[1..]);
      NoBreaks(rest);
    } else {
      rest := tail[1..];
    }
  }

  /** The column behind the tail. */
  function PlainColumn(m: Mark, tail: string): nat {
    if BreakIn(tail) then Behind(tail) else m.column + |tail|
  }

  // ---------- scalars in a block ----------

  lemma {:induction false} SameValue(ls: seq<PlainLine>, a: int, b: int)
    requires PlainLinesOk(ls, a, 0) && PlainLinesOk(ls, b, 0)
    ensures PlainLinesValue(ls, a, 0) == PlainLinesValue(ls, b, 0)
    decreases |ls|
  {
    hide PlainLineOk, BetweenValue;
    if ls != [] {
      assert PlainLineOk(ls[0], a, 0) && PlainLineOk(ls[0], b, 0);
      SameValue(ls[1..], a, b);
    }
  }

  /** What may stand behind the first line of a plain scalar does not make a document indicator of it. */
  lemma NoIndicator(t: string, m: Mark, v: string)
    requires BeginsPlain(v) && Fragment(v, 0) && Reads(t, m.index, v)
    requires |v| < 3 ==> Ch(t, m.index + |v|) != '-' && Ch(t, m.index + |v|) != '.'
    ensures !DocIndicatorAt(t, m)
  {
    FragmentChar(t, 0, m, v, 0);
    if |v| > 1 { FragmentChar(t, 0, m, v, 1); }
    if |v| > 2 { FragmentChar(t, 0, m, v, 2); }
    if |v| > 3 { FragmentChar(t, 0, m, v, 3); }
    if |v| >= 3 { assert v[..3] == [v[0], v[1], v[2]]; }
  }

  lemma PlainIsNext(t: string, s: State, v: string)
    requires BeginsPlain(v) && Fragment(v, 0) && Reads(t, s.mark.index, v) && s.flow == 0 && !DocIndicatorAt(t, s.mark)
    ensures Dispatch(t, s) == FetchPlainScalar(t, s) && !ValueNext(t, s)
  {
    hide FetchStreamEnd, FetchDirective, FetchDocumentIndicator, FetchFlowStart, FetchFlowEnd, FetchFlowEntry,
      FetchBlockEntry, FetchKey, FetchValue, FetchAnchor, FetchTag, FetchFlowScalar, FetchPlainScalar, DocIndicatorAt;
    FragmentChar(t, 0, s.mark, v, 0);
    if |v| > 1 { FragmentChar(t, 0, s.mark, v, 1); }
  }

  lemma {:induction false} PlainScanned(t: string, parent: int, m: Mark, s: Scalar, tail: string)
    returns (end: Mark, next: Mark, leads: bool)
    requires s.PlainScalar? && ScalarOk(s) && Deep(s, parent) && m.column >= parent && !DocIndicatorAt(t, m)
    requires Reads(t, m.index, ScalarText(s)) && Ends(t, m.index + |ScalarText(s)|, tail, parent)
    ensures ScanPlain(t, 0, parent, m) == PlainOk(ScalarSays(s), end, next, leads)
    ensures next.index == m.index + |ScalarText(s)| + |tail| && leads == BreakIn(tail)
    ensures BreakIn(tail) ==> next.column == Behind(tail)
  {
    hide ScanPlain, PlainChars, PlainBlanks, DocIndicatorAt, PlainLinesText, PlainLinesValue, PlainLinesOk, Fragment,
      Join, BeginsPlain, Reads, TailOk;
    ReadsPart(t, m.index, s.v, PlainLinesText(s.more));
    PlainStarts(t, 0, parent, m, s.v);
    SameValue(s.more, parent + 1, 0);
    var last := PlainLinesOn(t, 0, parent + 1, m, s.v, s.more, "", m, "", "", false);
    NothingJoined();
    assert "" + "" + s.v + PlainLinesValue(s.more, parent + 1, 0) == ScalarSays(s);
    end, next, leads := PlainBehind(t, parent + 1, last, ScalarSays(s), tail);
  }

  lemma PlainBehind(t: string, indent: int, m: Mark, s: string, tail: string)
    returns (end: Mark, next: Mark, leads: bool)
    requires Ends(t, m.index, tail, indent - 1)
    ensures PlainChars(t, 0, indent, m, s, m, "", "", "", false) == PlainOk(s, end, next, leads)
    ensures LeadsTo(t, m, tail, next) && leads == BreakIn(tail)
  {
    hide PlainBlanks;
    end := m;
    if tail == "" {
      next, leads := m, false;
    } else {
      ReadsFirst(t, m.index, tail);
      PlainBlanksBegin(t, 0, indent, m, s, m);
      next, leads := PlainTail(t, indent, m, s, m, "", "", "", false, tail);
    }
  }

  /** Between tokens: what the scanner comes to next, and whether a simple key may begin there. */
  ghost predicate Here(t: string, sc: State, m: Mark, allowed: bool) {
    && sc.started && sc.flow == 0 && |sc.keys| == 1 && sc.parsed <= |sc.tokens|
    && Settle(t, sc.mark, 0, sc.keyAllowed) == (m, allowed)
  }

  /** The scanner is past what ends at k, with the tail to come. */
  ghost predicate Past(t: string, sc: State, k: nat, tail: string) {
    && sc.started && sc.flow == 0 && |sc.keys| == 1 && sc.parsed <= |sc.tokens|
    && var (next, a) := Settle(t, sc.mark, 0, sc.keyAllowed);
       next.index == k + |tail| && (BreakIn(tail) ==> a && next.column == Behind(tail))
  }

  ghost function KeysAt(sc: State, m: Mark, allowed: bool): seq<Option<SimpleKey>> {
    if allowed then [Some(SimpleKey(sc.indent == m.column, |sc.tokens|, m))] else sc.keys
  }

  lemma SavedAt(sc: State, m: Mark, allowed: bool)
    requires sc.flow == 0 && |sc.keys| == 1 && IdleKey(sc)
    ensures SaveKey(sc.(mark := m, keyAllowed := allowed))
         == Ok(sc.(mark := m, keyAllowed := allowed, keys := KeysAt(sc, m, allowed)))
  {
    assert sc.keys[0 := None] == [None];
    var k := Some(SimpleKey(sc.indent == m.column, |sc.tokens|, m));
    assert [None][0 := k] == [k];
  }

  lemma HereNext(t: string, f: State -> Fetched, sc: State, m: Mark, allowed: bool)
    requires Fetches(t, f) && Here(t, sc, m, allowed) && KeysInTime(sc) && m.column >= sc.indent
    requires KeyIsLast(t, sc.(mark := m, keyAllowed := allowed))
    ensures f(sc) == Dispatch(t, sc.(mark := m, keyAllowed := allowed))
  {
    hide Dispatch, KeyIsLast, KeysInTime;
    assert Prepared(t, sc) == sc.(mark := m, keyAllowed := allowed);
    FetchesNext(t, f, sc);
  }

  /** The state behind a scalar, apart from where its scan stopped. */
  ghost predicate Taken(sc: State, sc1: State, m: Mark, allowed: bool, token: Token) {
    sc1 == sc.(tokens := sc.tokens + [token], keys := KeysAt(sc, m, allowed), mark := sc1.mark,
               keyAllowed := sc1.keyAllowed)
  }

  /** The first character of a scalar; it is no ':' that ends a key. */
  lemma {:induction false} ScalarFirst(t: string, k: nat, s: Scalar)
    requires ScalarOk(s) && Reads(t, k, ScalarText(s))
    ensures ScalarText(s) != "" && Ch(t, k) == ScalarText(s)[0] && !BlankOrBreak(Ch(t, k)) && Ch(t, k) != NUL
    ensures s.QuotedScalar? ==> Ch(t, k) == QuoteMark(s.single)[0]
  {
    hide UnitsText, Folding.LinesText, UnitsOk, Folding.LinesOk, Continues, PlainLinesOk;
    ReadsFirst(t, k, ScalarText(s));
    if s.PlainScalar? {
      ReadsPart(t, k, s.v, PlainLinesText(s.more));
      FragmentChar(t, 0, Mark(k, 0, 0), s.v, 0);
    }
  }

  lemma {:induction false} BehindPlain(t: string, k: nat, more: seq<PlainLine>, tail: string, parent: int)
    requires PlainLinesOk(more, 0, 0) && Reads(t, k, PlainLinesText(more))
    requires Ends(t, k + |PlainLinesText(more)|, tail, parent)
    ensures Ch(t, k) != '-' && Ch(t, k) != '.'
  {
    hide Ends;
    if more != [] {
      assert PlainLineOk(more[0], 0, 0);
      BetweenFirstOf(more[0].between);
      ReadsFirst(t, k, PlainLinesText(more));
    } else {
      TailFirst(t, k, tail, parent);
    }
  }

  lemma TailFirst(t: string, k: nat, tail: string, parent: int)
    requires Ends(t, k, tail, parent)
    ensures BlankOrBreak(Ch(t, k)) || Ch(t, k) == NUL
  {
    if tail != "" { ReadsFirst(t, k, tail); }
  }

  lemma BetweenFirstOf(b: Between)
    requires b.Fold? && BetweenOk(b, true)
    ensures BetweenText(b) != "" && BlankOrBreak(BetweenText(b)[0])
  {
    assert TurnsText(b.turns)[0] == BreakChars(b.turns[0].break_)[0];
  }

  /** A scalar inside a block, with what ends it, is one token. */
  lemma {:induction false} LeafRead(t: string, f: State -> Fetched, sc: State, m: Mark, allowed: bool, s: Scalar,
                                    tail: string)
    returns (sc1: State)
    requires Fetches(t, f) && Here(t, sc, m, allowed) && IdleKey(sc) && m.column > sc.indent
    requires ScalarOk(s) && Deep(s, sc.indent) && Reads(t, m.index, ScalarText(s))
    requires Ends(t, m.index + |ScalarText(s)|, tail, sc.indent)
    ensures f(sc) == Ok(sc1) && Taken(sc, sc1, m, allowed, TokenOf(s)) && Past(t, sc1, m.index + |ScalarText(s)|, tail)
  {
    hide Dispatch, Settle, ScalarOk, Deep, Ends, ScalarText, KeysInTime, KeyIsLast;
    ScalarFirst(t, m.index, s);
    assert KeysInTime(sc) by { IdleInTime(sc); }
    var r := sc.(mark := m, keyAllowed := allowed);
    SavedAt(sc, m, allowed);
    if s.PlainScalar? {
      sc1 := PlainLeaf(t, f, sc, m, allowed, s, tail);
    } else {
      sc1 := QuotedLeaf(t, f, sc, m, allowed, s, tail);
    }
  }

  lemma {:induction false} PlainLeaf(t: string, f: State -> Fetched, sc: State, m: Mark, allowed: bool, s: Scalar,
                                     tail: string)
    returns (sc1: State)
    requires Fetches(t, f) && Here(t, sc, m, allowed) && IdleKey(sc) && m.column > sc.indent && KeysInTime(sc)
    requires s.PlainScalar? && ScalarOk(s) && Deep(s, sc.indent) && Reads(t, m.index, ScalarText(s))
    requires Ends(t, m.index + |ScalarText(s)|, tail, sc.indent)
    ensures f(sc) == Ok(sc1) && Taken(sc, sc1, m, allowed, TokenOf(s)) && Past(t, sc1, m.index + |ScalarText(s)|, tail)
  {
    hide Dispatch, Deep, Ends, PlainLinesText, PlainLinesOk, KeysInTime, DocIndicatorAt, Fragment, BeginsPlain,
      ScanPlain, Reads;
    var r := sc.(mark := m, keyAllowed := allowed);
    ReadsPart(t, m.index, s.v, PlainLinesText(s.more));
    BehindPlain(t, m.index + |s.v|, s.more, tail, sc.indent);
    NoIndicator(t, m, s.v);
    PlainIsNext(t, r, s.v);
    HereNext(t, f, sc, m, allowed);
    SavedAt(sc, m, allowed);
    var end, next, leads := PlainScanned(t, sc.indent, m, s, tail);
    sc1 := f(sc).value;
    assert sc1.mark == next && sc1.keyAllowed == leads;
    SettleStays(t, next, leads, tail, sc.indent, m.index + |ScalarText(s)|);
  }

  lemma SettleStays(t: string, m: Mark, allowed: bool, tail: string, parent: int, k: nat)
    requires Ends(t, k, tail, parent) && m.index == k + |tail|
    ensures Settle(t, m, 0, allowed) == (m, allowed)
  {
  }

  lemma {:induction false} QuotedLeaf(t: string, f: State -> Fetched, sc: State, m: Mark, allowed: bool, s: Scalar,
                                      tail: string)
    returns (sc1: State)
    requires Fetches(t, f) && Here(t, sc, m, allowed) && IdleKey(sc) && m.column > sc.indent && KeysInTime(sc)
    requires s.QuotedScalar? && ScalarOk(s) && Reads(t, m.index, ScalarText(s))
    requires Ends(t, m.index + |ScalarText(s)|, tail, sc.indent)
    ensures f(sc) == Ok(sc1) && Taken(sc, sc1, m, allowed, TokenOf(s)) && Past(t, sc1, m.index + |ScalarText(s)|, tail)
  {
    hide Dispatch, Ends, UnitsText, Folding.LinesText, UnitsOk, Folding.LinesOk, Continues, KeysInTime, ScanFlow,
      Settle, UnitsValue, LinesValue, Reads;
    var r := sc.(mark := m, keyAllowed := allowed);
    var k := m.index + |ScalarText(s)|;
    ScalarFirst(t, m.index, s);
    TailFirst(t, k, tail, sc.indent);
    DispatchQuoted(t, r);
    HereNext(t, f, sc, m, allowed);
    SavedAt(sc, m, allowed);
    assert k == m.index + |UnitsText(s.units, s.single)| + |Folding.LinesText(s.lines, s.single)| + 2;
    var end := LinesAreRead(t, s.single, m, s.units, s.lines);
    sc1 := f(sc).value;
    assert sc1.mark == end && !sc1.keyAllowed;
    EndPasses(t, end, tail, sc.indent);
  }

  lemma EndPasses(t: string, m: Mark, tail: string, parent: int)
    requires Ends(t, m.index, tail, parent)
    ensures var (next, a) := Settle(t, m, 0, false); LeadsTo(t, m, tail, next) && a == BreakIn(tail)
  {
    TailPassed(t, m, false, tail);
  }
}
