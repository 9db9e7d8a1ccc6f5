/**
 Quoted scalars that are refused: with an escape that there is not, without an end, or with a
 document indicator at the beginning of a line.
 */
module ScalarRefused {
  import opened Chars
  import opened ScalarScan
  import opened FlowSteps
  import opened Spelling
  import opened Folding

  /** Behind the opening quote and some characters, however spelled. */
  lemma {:induction false} Inside(t: string, single: bool, m: Mark, us: seq<Unit>)
    requires UnitsOk(us, single) && Reads(t, m.index, QuoteMark(single) + UnitsText(us, single))
    requires EndsBlank(us) ==> !IsBlankz(Ch(t, m.index + 1 + |UnitsText(us, single)|))
    ensures ScanFlow(t, single, m)
         == FlowChars(t, single, Advance(m, 1 + |UnitsText(us, single)|), UnitsValue(us, single))
  {
    hide UnitsText, UnitsValue, UnitsOk, FlowChars;
    ReadsPart(t, m.index, QuoteMark(single), UnitsText(us, single));
    UnitsOn(t, single, Skip(m), "", "", false, us);
    assert Advance(Skip(m), |UnitsText(us, single)|) == Advance(m, 1 + |UnitsText(us, single)|);
    assert "" + "" + UnitsValue(us, single) == UnitsValue(us, single);
    TopIsChars(t, single, Skip(m));
  }

  lemma TopIsChars(t: string, single: bool, m: Mark)
    requires m.column > 0
    ensures FlowTop(t, single, m, "") == FlowChars(t, single, m, "")
  {
  }

  /** A quoted scalar that is not closed is refused at the end. */
  lemma {:induction false} Unclosed(t: string, single: bool, m: Mark, us: seq<Unit>)
    requires UnitsOk(us, single) && Reads(t, m.index, QuoteMark(single) + UnitsText(us, single)) && !EndsBlank(us)
    requires Ch(t, m.index + 1 + |UnitsText(us, single)|) == NUL
    ensures ScanFlow(t, single, m) == FlowErr(EndOfStream, Advance(m, 1 + |UnitsText(us, single)|))
  {
    hide UnitsText, UnitsValue, UnitsOk, FlowBlanks;
    Inside(t, single, m, us);
  }

  predicate HexChar(c: char) {
    '0' <= c <= '9' || 'a' <= c <= 'f' || 'A' <= c <= 'F'
  }

  /** How many digits the escape of this letter has. */
  function DigitsDue(letter: char): nat {
    match letter
    case 'x' => 2
    case 'u' => 4
    case 'U' => 8
    case _ => 0
  }

  /** A backslash with a letter that names no character, or with too few digits, or with digits of no character. */
  lemma {:induction false} EscapeRefused(t: string, m: Mark, us: seq<Unit>, ds: seq<HexDigit>)
    requires UnitsOk(us, false) && Reads(t, m.index, "\"" + UnitsText(us, false))
    requires Ch(t, m.index + 1 + |UnitsText(us, false)|) == '\\' && DigitsOk(ds)
    ensures var k := m.index + 1 + |UnitsText(us, false)|;
      var letter := Ch(t, k + 1);
      && (NamedChar(letter) == NoCode && DigitsDue(letter) == 0 && !IsBreak(letter) ==>
            ScanFlow(t, false, m) == FlowErr(UnknownEscape, Advance(m, k - m.index)))
      && (DigitsDue(letter) > 0 && (exists j :: k + 2 <= j < k + 2 + DigitsDue(letter) && !HexChar(Ch(t, j))) ==>
            ScanFlow(t, false, m) == FlowErr(BadHexDigit, Advance(m, k + 2 - m.index)))
      && (DigitsDue(letter) == |ds| > 0 && Reads(t, k + 2, DigitsText(ds))
          && (DigitsValue(ds) > 0x10FFFF || 0xD800 <= DigitsValue(ds) <= 0xDFFF) ==>
            ScanFlow(t, false, m) == FlowErr(BadCodePoint, Advance(m, k + 2 - m.index)))
  {
    hide UnitsText, UnitsValue, UnitsOk, FlowChars, DigitsValue, DigitsText, ReadEscape, NamedChar;
    Inside(t, false, m, us);
    var k := m.index + 1 + |UnitsText(us, false)|;
    BadEscapes(t, k, ds);
    NoBreakDue(Ch(t, k + 1));
    if !IsBreak(Ch(t, k + 1)) { EscapeFails(t, Advance(m, k - m.index), UnitsValue(us, false)); }
  }

  lemma NoBreakDue(c: char)
    ensures DigitsDue(c) > 0 ==> !IsBreak(c)
  {
  }

  lemma BadEscapes(t: string, k: nat, ds: seq<HexDigit>)
    requires DigitsOk(ds)
    ensures var letter := Ch(t, k + 1);
      && (NamedChar(letter) == NoCode && DigitsDue(letter) == 0 ==> ReadEscape(t, k) == BadEscape(UnknownEscape, 0))
      && (DigitsDue(letter) > 0 && (exists j :: k + 2 <= j < k + 2 + DigitsDue(letter) && !HexChar(Ch(t, j))) ==>
            ReadEscape(t, k) == BadEscape(BadHexDigit, 2))
      && (DigitsDue(letter) == |ds| > 0 && Reads(t, k + 2, DigitsText(ds))
          && (DigitsValue(ds) > 0x10FFFF || 0xD800 <= DigitsValue(ds) <= 0xDFFF) ==>
            ReadEscape(t, k) == BadEscape(BadCodePoint, 2))
  {
    hide DigitsText, DigitsValue, HexValue;
    if NamedChar(Ch(t, k + 1)) == NoCode {
      NoLetter(Ch(t, k + 1));
      if Reads(t, k + 2, DigitsText(ds)) { DigitsRead(t, k + 2, ds); }
    }
  }

  lemma EscapeFails(t: string, m: Mark, s: string)
    requires Ch(t, m.index) == '\\' && !IsBreak(Ch(t, m.index + 1))
    ensures ReadEscape(t, m.index).BadEscape? ==>
      var e := ReadEscape(t, m.index); FlowChars(t, false, m, s) == FlowErr(e.error, Advance(m, e.offset))
  {
    hide FlowBlanks, ReadEscape;
  }

  lemma NoLetter(c: char)
    requires NamedChar(c) == NoCode
    ensures Lookup(SIMPLE, c, 0) == ""
  {
    LookupFinds(SIMPLE, c, 0);
  }

  /** A line of a quoted scalar that is a document indicator ends it with an error. */
  lemma {:induction false} IndicatorInside(t: string, single: bool, m: Mark, us: seq<Unit>, b: Between)
    requires UnitsOk(us, single) && Reads(t, m.index, QuoteMark(single) + UnitsText(us, single)) && !EndsBlank(us)
    requires var k := m.index + 1 + |UnitsText(us, single)|;
      && b.Fold? && BetweenOk(b, single) && Reads(t, k, BetweenText(b))
      && DocIndicatorAt(t, AfterBetween(Advance(m, k - m.index), b))
    ensures ScanFlow(t, single, m)
         == FlowErr(DocumentIndicator, AfterBetween(Advance(m, 1 + |UnitsText(us, single)|), b))
  {
    hide UnitsText, UnitsValue, UnitsOk, FlowChars, FlowBlanks, TurnsText, TurnsKept, TurnsOk, AfterTurns, Reads,
      SkipLine, DocIndicatorAt, BreakKept, BreakText;
    Inside(t, single, m, us);
    var m0, s := Advance(m, 1 + |UnitsText(us, single)|), UnitsValue(us, single);
    var ts := b.turns;
    ReadsPart(t, m0.index, b.before, TurnsText(ts));
    var m1 := Advance(m0, |b.before|);
    FirstTurn(t, m1.index, ts);
    BlankFirst(t, m0.index, b.before);
    BlanksBegin(t, single, m0, s);
    BlankRun(t, single, m0, s, "", "", "", false, b.before);
    BreakTaken(t, single, m1, s, "" + b.before, "", "", false);
    TurnsSplit(t, m1.index, ts);
    BreakPassed(t, m1, ts[0].break_);
    var lead := "" + BreakKept(ts[0].break_);
    var m2 := SkipLine(t, m1);
    BlankRun(t, single, m2, s, "", lead, "", true, ts[0].blanks);
    var m3 := Advance(m2, |ts[0].blanks|);
    TurnsRun(t, single, m3, s, lead, "", ts[1..]);
    assert AfterTurns(m3, ts[1..]) == AfterTurns(m1, ts) by { TurnsOn(m1, ts, m3, t); }
    IndicatorStops(t, single, AfterTurns(m1, ts), s, lead, "" + TurnsKept(ts[1..]));
  }

  lemma TurnsOn(m: Mark, ts: seq<Turn>, m3: Mark, t: string)
    requires ts != [] && m3 == Mark(m.index + |BreakChars(ts[0].break_)| + |ts[0].blanks|, m.line + 1, |ts[0].blanks|)
    ensures AfterTurns(m3, ts[1..]) == AfterTurns(m, ts)
  {
  }

  lemma IndicatorStops(t: string, single: bool, m: Mark, s: string, lead: string, trail: string)
    requires DocIndicatorAt(t, m)
    ensures FlowBlanks(t, single, m, s, "", lead, trail, true) == FlowErr(DocumentIndicator, m)
  {
  }
}
