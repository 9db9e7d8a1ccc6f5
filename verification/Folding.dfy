/**
 Scalars over several lines (section 6.5 of YAML 1.2): a line break between two lines is a space,
 further ones stay, blanks around them go; and a break that is escaped goes too. However the breaks
 are written (LF, CR LF, NEL, LS or PS), scalars are scanned so.
 */
module Folding {
  import opened Chars
  import opened ScalarScan
  import opened FlowSteps
  import opened Spelling

  datatype Break = Lf | CrLf | Nel | Ls | Ps

  function BreakChars(b: Break): string {
    match b
    case Lf => "\n"
    case CrLf => "\r\n"
    case Nel => "\U{85}"
    case Ls => "\U{2028}"
    case Ps => "\U{2029}"
  }

  /** LS and PS stay what they are; all others are line feeds. */
  function BreakKept(b: Break): string {
    if b == Ls || b == Ps then BreakChars(b) else "\n"
  }

  /** A break, and the blanks that the next line begins with. */
  datatype Turn = Turn(break_: Break, blanks: string)

  function TurnsText(ts: seq<Turn>): string {
    if ts == [] then "" else BreakChars(ts[0].break_) + ts[0].blanks + TurnsText(ts[1..])
  }

  function TurnsKept(ts: seq<Turn>): string {
    if ts == [] then "" else BreakKept(ts[0].break_) + TurnsKept(ts[1..])
  }

  predicate TurnsOk(ts: seq<Turn>) {
    forall i :: 0 <= i < |ts| ==> Blanks(ts[i].blanks)
  }

  /** What a fold stands for: one line feed is a space, of several the first goes. */
  function Folded(ts: seq<Turn>): string
    requires ts != []
  {
    var first, more := BreakKept(ts[0].break_), TurnsKept(ts[1..]);
    if first != "\n" then first + more else if more == "" then " " else more
  }

  // ---------- positions ----------

  function AfterTurns(m: Mark, ts: seq<Turn>): Mark
    decreases |ts|
  {
    if ts == [] then m
    else
      var n := |BreakChars(ts[0].break_)|;
      AfterTurns(Mark(m.index + n + |ts[0].blanks|, m.line + 1, |ts[0].blanks|), ts[1..])
  }

  lemma {:induction false} AfterIndex(m: Mark, ts: seq<Turn>)
    ensures AfterTurns(m, ts).index == m.index + |TurnsText(ts)|
    ensures ts != [] ==> AfterTurns(m, ts).column == |ts[|ts| - 1].blanks|
    decreases |ts|
  {
    if ts != [] {
      var n := |BreakChars(ts[0].break_)|;
      AfterIndex(Mark(m.index + n + |ts[0].blanks|, m.line + 1, |ts[0].blanks|), ts[1..]);
    }
  }

  lemma {:induction false} TurnsSplit(t: string, k: nat, ts: seq<Turn>)
    requires ts != [] && TurnsOk(ts) && Reads(t, k, TurnsText(ts))
    ensures var n := |BreakChars(ts[0].break_)|;
      && Reads(t, k, BreakChars(ts[0].break_)) && Reads(t, k + n, ts[0].blanks)
      && Reads(t, k + n + |ts[0].blanks|, TurnsText(ts[1..]))
      && Blanks(ts[0].blanks) && TurnsOk(ts[1..])
  {
    var b := BreakChars(ts[0].break_);
    ReadsPart(t, k, b + ts[0].blanks, TurnsText(ts[1..]));
    ReadsPart(t, k, b, ts[0].blanks);
  }

  /** The break at m is passed as one, and is kept as such. */
  lemma BreakPassed(t: string, m: Mark, b: Break)
    requires Reads(t, m.index, BreakChars(b))
    ensures var c := Ch(t, m.index);
      && IsBreak(c) && !IsBlank(c) && BreakText(c) == BreakKept(b)
      && SkipLine(t, m) == Mark(m.index + |BreakChars(b)|, m.line + 1, 0)
  {
    ReadsFirst(t, m.index, BreakChars(b));
  }

  // ---------- quoted scalars ----------

  lemma {:induction false} BlankRun(t: string, single: bool, m: Mark, s: string, ws: string, lead: string,
                                    trail: string, leading: bool, gap: string)
    requires Blanks(gap) && Reads(t, m.index, gap)
    ensures FlowBlanks(t, single, m, s, ws, lead, trail, leading)
         == FlowBlanks(t, single, Advance(m, |gap|), s, if leading then ws else ws + gap, lead, trail, leading)
    decreases |gap|
  {
    if gap == "" {
      assert Advance(m, 0) == m && ws + "" == ws;
    } else {
      ReadsFirst(t, m.index, gap);
      BlankRun(t, single, Skip(m), s, if leading then ws else ws + [gap[0]], lead, trail, leading, gap[1..]);
      assert Advance(Skip(m), |gap| - 1) == Advance(m, |gap|);
      assert ws + [gap[0]] + gap[1..] == ws + gap;
    }
  }

  /** Breaks behind the first one are kept. */
  lemma {:induction false} TurnsRun(t: string, single: bool, m: Mark, s: string, lead: string, trail: string,
                                    ts: seq<Turn>)
    requires TurnsOk(ts) && Reads(t, m.index, TurnsText(ts))
    ensures FlowBlanks(t, single, m, s, "", lead, trail, true)
         == FlowBlanks(t, single, AfterTurns(m, ts), s, "", lead, trail + TurnsKept(ts), true)
    decreases |ts|
  {
    hide FlowBlanks;
    if ts == [] {
      assert trail + "" == trail;
    } else {
      TurnsSplit(t, m.index, ts);
      BreakPassed(t, m, ts[0].break_);
      BreakTaken(t, single, m, s, "", lead, trail, true);
      var m1 := SkipLine(t, m);
      BlankRun(t, single, m1, s, "", lead, trail + BreakKept(ts[0].break_), true, ts[0].blanks);
      TurnsRun(t, single, Advance(m1, |ts[0].blanks|), s, lead, trail + BreakKept(ts[0].break_), ts[1..]);
      assert trail + BreakKept(ts[0].break_) + TurnsKept(ts[1..]) == trail + TurnsKept(ts);
    }
  }

  lemma BreakTaken(t: string, single: bool, m: Mark, s: string, ws: string, lead: string, trail: string, leading: bool)
    requires IsBreak(Ch(t, m.index)) && !IsBlank(Ch(t, m.index))
    ensures FlowBlanks(t, single, m, s, ws, lead, trail, leading)
         == if leading then FlowBlanks(t, single, SkipLine(t, m), s, ws, lead, trail + BreakText(Ch(t, m.index)), true)
            else FlowBlanks(t, single, SkipLine(t, m), s, "", lead + BreakText(Ch(t, m.index)), trail, true)
  {
  }

  /** Between two lines: blanks, breaks and blanks; or an escaped break, with more of them behind it. */
  datatype Between = Fold(before: string, turns: seq<Turn>) | Splice(turns: seq<Turn>)

  predicate BetweenOk(b: Between, single: bool) {
    && b.turns != [] && TurnsOk(b.turns)
    && (b.Fold? ==> Blanks(b.before))
    && (b.Splice? ==> !single)
  }

  function BetweenText(b: Between): string {
    match b
    case Fold(before, turns) => before + TurnsText(turns)
    case Splice(turns) => "\\" + TurnsText(turns)
  }

  /** What it stands for; an escaped break for nothing. */
  function BetweenValue(b: Between): string
    requires b.turns != []
  {
    if b.Fold? then Folded(b.turns) else TurnsKept(b.turns[1..])
  }

  function AfterBetween(m: Mark, b: Between): Mark {
    AfterTurns(Advance(m, if b.Fold? then |b.before| else 1), b.turns)
  }

  /** From behind a break, whatever is kept of it, past blanks and further breaks. */
  lemma {:induction false} BehindBreak(t: string, single: bool, m: Mark, s: string, lead: string, ts: seq<Turn>)
    requires ts != [] && TurnsOk(ts) && Reads(t, m.index, TurnsText(ts))
    requires var m1 := AfterTurns(m, ts); !IsBlankz(Ch(t, m1.index)) && !DocIndicatorAt(t, m1)
    ensures FlowBlanks(t, single, SkipLine(t, m), s, "", lead, "", true)
         == FlowChars(t, single, AfterTurns(m, ts), s + Join("", lead, TurnsKept(ts[1..]), true))
  {
    hide FlowChars, FlowBlanks, DocIndicatorAt, Join, IsBlankz, Reads, TurnsText, TurnsKept, TurnsOk;
    TurnsSplit(t, m.index, ts);
    BreakPassed(t, m, ts[0].break_);
    var m2 := SkipLine(t, m);
    BlankRun(t, single, m2, s, "", lead, "", true, ts[0].blanks);
    var m3 := Advance(m2, |ts[0].blanks|);
    TurnsRun(t, single, m3, s, lead, "", ts[1..]);
    var kept := TurnsKept(ts[1..]);
    assert "" + kept == kept;
    assert AfterTurns(m3, ts[1..]) == AfterTurns(m, ts);
    JoinStep(t, single, AfterTurns(m, ts), s, "", lead, kept, true);
  }

  lemma {:induction false} FirstTurn(t: string, k: nat, ts: seq<Turn>)
    requires ts != [] && TurnsOk(ts) && Reads(t, k, TurnsText(ts))
    ensures var c := Ch(t, k); IsBreak(c) && !IsBlank(c) && BreakText(c) == BreakKept(ts[0].break_)
  {
    hide BreakKept, BreakText;
    TurnsSplit(t, k, ts);
    BreakPassed(t, Mark(k, 0, 0), ts[0].break_);
  }

  lemma FoldJoined(ts: seq<Turn>)
    requires ts != []
    ensures Join("", "" + BreakKept(ts[0].break_), TurnsKept(ts[1..]), true) == Folded(ts)
  {
    FirstKept(ts[0].break_);
    assert "" + BreakKept(ts[0].break_) == BreakKept(ts[0].break_);
  }

  lemma {:induction false} FoldIsRead(t: string, single: bool, m: Mark, s: string, b: Between)
    requires b.Fold? && BetweenOk(b, single) && Reads(t, m.index, BetweenText(b))
    requires var m1 := AfterBetween(m, b); !IsBlankz(Ch(t, m1.index)) && !DocIndicatorAt(t, m1)
    ensures FlowChars(t, single, m, s) == FlowChars(t, single, AfterBetween(m, b), s + BetweenValue(b))
  {
    hide FlowChars, FlowBlanks, DocIndicatorAt, Join, IsBlankz, Reads, TurnsText, TurnsKept, TurnsOk, AfterTurns,
      Folded, BreakKept, SkipLine;
    ReadsPart(t, m.index, b.before, TurnsText(b.turns));
    var m1 := Advance(m, |b.before|);
    FirstTurn(t, m1.index, b.turns);
    BlankFirst(t, m.index, b.before);
    BlanksBegin(t, single, m, s);
    BlankRun(t, single, m, s, "", "", "", false, b.before);
    BreakTaken(t, single, m1, s, "" + b.before, "", "", false);
    BehindBreak(t, single, m1, s, "" + BreakKept(b.turns[0].break_), b.turns);
    FoldJoined(b.turns);
  }

  lemma FirstKept(b: Break)
    ensures BreakKept(b) != "" && (BreakKept(b)[0] == '\n' <==> BreakKept(b) == "\n")
  {
  }

  lemma BlanksBegin(t: string, single: bool, m: Mark, s: string)
    requires BlankOrBreak(Ch(t, m.index))
    ensures FlowChars(t, single, m, s) == FlowBlanks(t, single, m, s, "", "", "", false)
  {
  }

  lemma {:induction false} SpliceIsRead(t: string, single: bool, m: Mark, s: string, b: Between)
    requires b.Splice? && BetweenOk(b, single) && Reads(t, m.index, BetweenText(b))
    requires var m1 := AfterBetween(m, b); !IsBlankz(Ch(t, m1.index)) && !DocIndicatorAt(t, m1)
    ensures FlowChars(t, single, m, s) == FlowChars(t, single, AfterBetween(m, b), s + BetweenValue(b))
  {
    hide FlowChars, FlowBlanks, DocIndicatorAt, IsBlankz, TurnsText, TurnsKept, TurnsOk, AfterTurns, BreakKept,
      SkipLine, Reads;
    var ts := b.turns;
    ReadsPart(t, m.index, "\\", TurnsText(ts));
    ReadsFirst(t, m.index, "\\");
    var m1 := Advance(m, 1);
    FirstTurn(t, m1.index, ts);
    SpliceTaken(t, m, s);
    BehindBreak(t, single, m1, s, "", ts);
    var kept := TurnsKept(ts[1..]);
    assert "" + kept == kept;
    if AtQuote(t, single, SkipLine(t, m1)) {
      QuoteBehind(t, m1, ts);
      assert s + "" == s;
    }
  }

  /** An escaped break right in front of the closing quote. */
  lemma {:induction false} QuoteBehind(t: string, m: Mark, ts: seq<Turn>)
    requires ts != [] && TurnsOk(ts) && Reads(t, m.index, TurnsText(ts)) && Ch(t, SkipLine(t, m).index) == '"'
    ensures AfterTurns(m, ts) == SkipLine(t, m) && TurnsKept(ts[1..]) == ""
  {
    TurnsSplit(t, m.index, ts);
    BreakPassed(t, m, ts[0].break_);
    NoTurnsAtQuote(t, SkipLine(t, m), ts);
  }

  lemma BlankFirst(t: string, k: nat, gap: string)
    requires Blanks(gap) && Reads(t, k, gap)
    ensures gap != "" ==> IsBlank(Ch(t, k))
  {
    if gap != "" { ReadsFirst(t, k, gap); }
  }

  lemma {:induction false} BreakFirst(t: string, k: nat, ts: seq<Turn>)
    requires Reads(t, k, TurnsText(ts))
    ensures ts != [] ==> IsBreak(Ch(t, k))
  {
    if ts != [] {
      assert TurnsText(ts)[0] == BreakChars(ts[0].break_)[0];
      ReadsFirst(t, k, TurnsText(ts));
    }
  }

  lemma {:induction false} NoTurnsAtQuote(t: string, m: Mark, ts: seq<Turn>)
    requires ts != [] && TurnsOk(ts) && Ch(t, m.index) == '"'
    requires Reads(t, m.index, ts[0].blanks) && Reads(t, m.index + |ts[0].blanks|, TurnsText(ts[1..]))
    ensures ts[0].blanks == "" && ts[1..] == [] && TurnsKept(ts[1..]) == "" && TurnsText(ts[1..]) == ""
  {
    BlankFirst(t, m.index, ts[0].blanks);
    BreakFirst(t, m.index + |ts[0].blanks|, ts[1..]);
  }

  lemma SpliceTaken(t: string, m: Mark, s: string)
    requires Ch(t, m.index) == '\\' && IsBreak(Ch(t, m.index + 1))
    ensures var m1 := SkipLine(t, Advance(m, 1));
      FlowChars(t, false, m, s) == if AtQuote(t, false, m1) then FlowOk(s, Skip(m1))
                                   else FlowBlanks(t, false, m1, s, "", "", "", true)
    ensures var m1 := SkipLine(t, Advance(m, 1));
      AtQuote(t, false, m1) ==> FlowChars(t, false, m1, s) == FlowOk(s, Skip(m1))
  {
    assert Advance(m, 1) == Skip(m);
  }

  // ---------- lines of a quoted scalar ----------

  datatype Line = Line(between: Between, units: seq<Unit>)

  function LinesText(ls: seq<Line>, single: bool): string
    requires LinesOk(ls, single)
  {
    if ls == [] then "" else BetweenText(ls[0].between) + UnitsText(ls[0].units, single) + LinesText(ls[1..], single)
  }

  function LinesValue(ls: seq<Line>, single: bool): string
    requires LinesOk(ls, single)
  {
    if ls == [] then ""
    else BetweenValue(ls[0].between) + UnitsValue(ls[0].units, single) + LinesValue(ls[1..], single)
  }

  /** A line that does not begin like a document indicator, and with something on it if one is to follow. */
  predicate LineOk(l: Line, single: bool) {
    && BetweenOk(l.between, single) && UnitsOk(l.units, single)
    && (l.units != [] && l.units[0].Raw? ==> !IsBlank(l.units[0].c))
    && (l.between.turns[|l.between.turns| - 1].blanks == "" && l.units != [] && l.units[0].Raw? ==>
          l.units[0].c != '-' && l.units[0].c != '.')
  }

  predicate LinesOk(ls: seq<Line>, single: bool) {
    forall i :: 0 <= i < |ls| ==> LineOk(ls[i], single)
  }

  /** Blanks at the end of a line stay only in front of an escaped break. */
  predicate Continues(units: seq<Unit>, ls: seq<Line>)
    decreases |ls|
  {
    && (ls != [] && EndsBlank(units) ==> ls[0].between.Splice?)
    && (ls != [] ==> (|ls| > 1 ==> ls[0].units != []) && Continues(ls[0].units, ls[1..]))
  }

  lemma {:induction false} LineBegins(t: string, m: Mark, l: Line, single: bool, after: nat)
    requires LineOk(l, single) && Reads(t, m.index, UnitsText(l.units, single))
    requires m.column == |l.between.turns[|l.between.turns| - 1].blanks|
    requires after == m.index + |UnitsText(l.units, single)| && (l.units == [] ==> Ch(t, after) == QuoteMark(single)[0])
    ensures !IsBlankz(Ch(t, m.index)) && !DocIndicatorAt(t, m)
  {
    hide DigitsText, DigitsValue;
    if l.units != [] {
      UnitsSplit(t, m.index, l.units, single);
      ReadsFirst(t, m.index, UnitText(l.units[0], single));
    } else {
      NoUnits(single);
    }
  }

  /** What comes behind the units of a line: the quote, or what leads to the next line. */
  lemma {:induction false} LineStops(t: string, k: nat, units: seq<Unit>, ls: seq<Line>, single: bool)
    requires LinesOk(ls, single) && Continues(units, ls) && Reads(t, k, LinesText(ls, single) + QuoteMark(single))
    ensures EndsBlank(units) ==> !IsBlankz(Ch(t, k))
    ensures ls == [] ==> Ch(t, k) == QuoteMark(single)[0]
  {
    hide UnitsText;
    if ls == [] {
      assert LinesText(ls, single) + QuoteMark(single) == QuoteMark(single);
      ReadsFirst(t, k, QuoteMark(single));
    } else if ls[0].between.Splice? {
      assert (LinesText(ls, single) + QuoteMark(single))[0] == '\\';
      ReadsFirst(t, k, LinesText(ls, single) + QuoteMark(single));
    }
  }

  lemma {:induction false} LinesSplit(t: string, k: nat, ls: seq<Line>, single: bool)
    requires ls != [] && LinesOk(ls, single) && Reads(t, k, LinesText(ls, single) + QuoteMark(single))
    ensures LineOk(ls[0], single) && LinesOk(ls[1..], single)
    ensures var a, b := BetweenText(ls[0].between), UnitsText(ls[0].units, single);
      && Reads(t, k, a) && Reads(t, k + |a|, b)
      && Reads(t, k + |a| + |b|, LinesText(ls[1..], single) + QuoteMark(single))
      && |LinesText(ls, single)| == |a| + |b| + |LinesText(ls[1..], single)|
  {
    hide UnitsText, BetweenText, LineOk;
    assert LineOk(ls[0], single);
    LineOkBetween(ls[0], single);
    var a, b := BetweenText(ls[0].between), UnitsText(ls[0].units, single);
    var rest := LinesText(ls[1..], single) + QuoteMark(single);
    assert LinesText(ls, single) + QuoteMark(single) == a + (b + rest);
    ReadsPart(t, k, a, b + rest);
    ReadsPart(t, k + |a|, b, rest);
  }

  lemma {:induction false} LinesOn(t: string, single: bool, m: Mark, s: string, units: seq<Unit>, ls: seq<Line>)
    returns (end: Mark)
    requires UnitsOk(units, single) && LinesOk(ls, single) && Continues(units, ls)
    requires Reads(t, m.index, UnitsText(units, single))
    requires Reads(t, m.index + |UnitsText(units, single)|, LinesText(ls, single) + QuoteMark(single))
    requires single ==> Ch(t, m.index + |UnitsText(units, single)| + |LinesText(ls, single)| + 1) != '\''
    ensures FlowChars(t, single, m, s) == FlowOk(s + UnitsValue(units, single) + LinesValue(ls, single), end)
    ensures end.index == m.index + |UnitsText(units, single)| + |LinesText(ls, single)| + 1
    decreases |ls|
  {
    hide FlowChars, UnitsText, UnitsValue, UnitsOk, BetweenText, BetweenValue, LineOk, AfterBetween, DocIndicatorAt,
      EndsBlank;
    var k := m.index + |UnitsText(units, single)|;
    LineStops(t, k, units, ls, single);
    UnitsOn(t, single, m, s, "", false, units);
    var s1 := s + UnitsValue(units, single);
    assert s + "" + UnitsValue(units, single) == s1;
    var m1 := Advance(m, |UnitsText(units, single)|);
    if ls == [] {
      QuoteTaken(t, single, m1, s1);
      end := Skip(m1);
      assert s1 + "" == s1;
    } else {
      LinesSplit(t, k, ls, single);
      var l := ls[0];
      var m2 := AfterBetween(m1, l.between);
      LineOkBetween(l, single);
      BetweenMark(m1, l, single);
      LineStops(t, m2.index + |UnitsText(l.units, single)|, l.units, ls[1..], single);
      LineBegins(t, m2, l, single, m2.index + |UnitsText(l.units, single)|);
      if l.between.Fold? {
        FoldIsRead(t, single, m1, s1, l.between);
      } else {
        SpliceIsRead(t, single, m1, s1, l.between);
      }
      end := LinesOn(t, single, m2, s1 + BetweenValue(l.between), l.units, ls[1..]);
      assert s1 + BetweenValue(l.between) + UnitsValue(l.units, single) + LinesValue(ls[1..], single)
          == s1 + LinesValue(ls, single);
    }
  }

  lemma LineOkBetween(l: Line, single: bool)
    requires LineOk(l, single)
    ensures BetweenOk(l.between, single) && UnitsOk(l.units, single)
  {
  }

  lemma BetweenMark(m: Mark, l: Line, single: bool)
    requires LineOk(l, single)
    ensures var m1 := AfterBetween(m, l.between);
      && m1.index == m.index + |BetweenText(l.between)|
      && m1.column == |l.between.turns[|l.between.turns| - 1].blanks|
  {
    AfterIndex(Advance(m, if l.between.Fold? then |l.between.before| else 1), l.between.turns);
  }

  /** A quoted scalar over as many lines as one likes is scanned to its lines, folded together. */
  lemma {:induction false} LinesAreRead(t: string, single: bool, m: Mark, units: seq<Unit>, ls: seq<Line>)
    returns (end: Mark)
    requires UnitsOk(units, single) && LinesOk(ls, single) && Continues(units, ls)
    requires var q := QuoteMark(single);
      Reads(t, m.index, q + (UnitsText(units, single) + (LinesText(ls, single) + q)))
    requires single ==> Ch(t, m.index + |UnitsText(units, single)| + |LinesText(ls, single)| + 2) != '\''
    ensures ScanFlow(t, single, m) == FlowOk(UnitsValue(units, single) + LinesValue(ls, single), end)
    ensures end.index == m.index + |UnitsText(units, single)| + |LinesText(ls, single)| + 2
  {
    hide FlowChars, UnitsText, UnitsValue, UnitsOk, LinesText, LinesValue, LinesOk, Continues;
    var q, a, b := QuoteMark(single), UnitsText(units, single), LinesText(ls, single);
    ReadsPart(t, m.index, q, a + (b + q));
    ReadsPart(t, m.index + 1, a, b + q);
    end := LinesOn(t, single, Skip(m), "", units, ls);
    assert "" + UnitsValue(units, single) == UnitsValue(units, single);
    SomethingThere(t, Skip(m), units, ls, single);
  }

  lemma {:induction false} SomethingThere(t: string, m: Mark, units: seq<Unit>, ls: seq<Line>, single: bool)
    requires UnitsOk(units, single) && LinesOk(ls, single) && Reads(t, m.index, UnitsText(units, single))
    requires Reads(t, m.index + |UnitsText(units, single)|, LinesText(ls, single) + QuoteMark(single))
    ensures Ch(t, m.index) != NUL
  {
    hide UnitOk;
    if units == [] {
      NoUnits(single);
      ReadsFirst(t, m.index, LinesText(ls, single) + QuoteMark(single));
      if ls != [] { FirstNotNul(ls, single); }
    } else {
      FirstIsThere(t, m, units, single);
    }
  }

  lemma FirstNotNul(ls: seq<Line>, single: bool)
    requires ls != [] && LinesOk(ls, single)
    ensures (LinesText(ls, single) + QuoteMark(single))[0] != NUL
  {
    hide UnitsText;
    var b := ls[0].between;
    assert LineOk(ls[0], single);
    assert BetweenText(b) != "" && BetweenText(b)[0] != NUL by { BetweenFirst(b, single); }
  }

  lemma BetweenFirst(b: Between, single: bool)
    requires BetweenOk(b, single)
    ensures BetweenText(b) != "" && BetweenText(b)[0] != NUL
  {
    assert TurnsText(b.turns)[0] == BreakChars(b.turns[0].break_)[0];
  }

  // ---------- plain scalars ----------

  /** The character at i is one that a plain scalar may hold there, at this flow level. */
  predicate CharFits(v: string, i: nat, flow: nat)
    requires i < |v|
  {
    && !IsBreak(v[i]) && v[i] != NUL && v[i] != '\t' && (flow > 0 ==> v[i] !in ",?[]{}")
    && (v[i] == ':' ==> i + 1 < |v| && v[i + 1] != ' ')
    && (v[i] == '#' ==> i > 0 && v[i - 1] != ' ')
  }

  /** Part of a plain scalar on one line: no token begins in it, and no blanks surround it. */
  predicate Fragment(v: string, flow: nat) {
    v != "" && v[0] != ' ' && v[|v| - 1] != ' ' && forall i :: 0 <= i < |v| ==> CharFits(v, i, flow)
  }

  lemma FragmentChar(t: string, flow: nat, m: Mark, v: string, i: nat)
    requires Fragment(v, flow) && Reads(t, m.index, v) && i < |v|
    ensures var k := m.index + i;
      && Ch(t, k) == v[i] && (v[i] == ' ' || !BlankOrBreak(v[i])) && v[i] != NUL
      && (v[i] != ' ' ==> !EndsPlain(t, flow, k)) && (v[i] == '#' ==> i > 0 && v[i - 1] != ' ')
  {
    assert Ch(t, m.index + i) == v[i] && CharFits(v, i, flow);
    if i + 1 < |v| { assert Ch(t, m.index + (i + 1)) == v[i + 1] && CharFits(v, i + 1, flow); }
  }

  lemma FragmentStep(t: string, flow: nat, indent: int, m: Mark, v: string, i: nat, s: string, end: Mark, ws: string)
    requires Fragment(v, flow) && Reads(t, m.index, v) && 0 < i < |v| && (flow == 0 ==> m.column + 1 >= indent)
    requires ws != "" ==> v[i - 1] == ' '
    ensures var at, next := Advance(m, i), Advance(m, i + 1);
      var here := if ws == "" then PlainChars(t, flow, indent, at, s, end, "", "", "", false)
                  else PlainBlanks(t, flow, indent, at, s, end, ws, "", "", false);
      here == if v[i] == ' ' then PlainBlanks(t, flow, indent, next, s, end, ws + " ", "", "", false)
              else PlainChars(t, flow, indent, next, s + ws + [v[i]], next, "", "", "", false)
  {
    FragmentChar(t, flow, m, v, i);
    var at := Advance(m, i);
    assert Skip(at) == Advance(m, i + 1);
    assert "" + [' '] == " " && ws + [' '] == ws + " ";
    assert !DocIndicatorAt(t, at);
    if v[i] != ' ' && ws != "" {
      PlainGoesOn(t, flow, indent, at, s, end, ws);
    }
  }

  lemma PlainGoesOn(t: string, flow: nat, indent: int, m: Mark, s: string, end: Mark, ws: string)
    requires !IsBlankz(Ch(t, m.index)) && Ch(t, m.index) != '#' && !DocIndicatorAt(t, m)
    requires flow == 0 ==> m.column >= indent
    ensures PlainBlanks(t, flow, indent, m, s, end, ws, "", "", false)
         == PlainChars(t, flow, indent, m, s, end, ws, "", "", false)
  {
    hide PlainChars, DocIndicatorAt;
  }

  lemma {:induction false} FragmentRest(t: string, flow: nat, indent: int, m: Mark, v: string, i: nat, s0: string,
                                        s: string, end: Mark, ws: string)
    requires Fragment(v, flow) && Reads(t, m.index, v) && 0 < i <= |v| && (flow == 0 ==> m.column + 1 >= indent)
    requires s + ws == s0 + v[..i] && (ws == "" ==> end == Advance(m, i)) && (ws != "" ==> i < |v| && v[i - 1] == ' ')
    ensures (if ws == "" then PlainChars(t, flow, indent, Advance(m, i), s, end, "", "", "", false)
             else PlainBlanks(t, flow, indent, Advance(m, i), s, end, ws, "", "", false))
         == PlainChars(t, flow, indent, Advance(m, |v|), s0 + v, Advance(m, |v|), "", "", "", false)
    decreases |v| - i
  {
    hide PlainChars, PlainBlanks, CharFits;
    if i == |v| {
      assert v[..i] == v && s + "" == s;
    } else {
      FragmentStep(t, flow, indent, m, v, i, s, end, ws);
      assert v[..i + 1] == v[..i] + [v[i]];
      if v[i] == ' ' {
        assert s + (ws + " ") == s + ws + [v[i]] == s0 + v[..i + 1];
        FragmentRest(t, flow, indent, m, v, i + 1, s0, s, end, ws + " ");
      } else {
        assert s + ws + [v[i]] + "" == s0 + v[..i + 1];
        FragmentRest(t, flow, indent, m, v, i + 1, s0, s + ws + [v[i]], Advance(m, i + 1), "");
      }
    }
  }

  /** A fragment is taken whole, behind what a fold in front of it stands for. */
  lemma {:induction false} FragmentIsRead(t: string, flow: nat, indent: int, m: Mark, v: string, s: string, end: Mark,
                                          lead: string, trail: string, leading: bool)
    requires Fragment(v, flow) && Reads(t, m.index, v) && (flow == 0 ==> m.column + 1 >= indent)
    ensures PlainChars(t, flow, indent, m, s, end, "", lead, trail, leading)
         == PlainChars(t, flow, indent, Advance(m, |v|), s + Join("", lead, trail, leading) + v, Advance(m, |v|),
                       "", "", "", false)
  {
    FragmentChar(t, flow, m, v, 0);
    var s1 := s + Join("", lead, trail, leading);
    FragmentFirst(t, flow, indent, m, v, s, end, lead, trail, leading);
    assert v[..1] == [v[0]] && s1 + [v[0]] + "" == s1 + v[..1];
    FragmentRest(t, flow, indent, m, v, 1, s1, s1 + [v[0]], Advance(m, 1), "");
  }

  lemma FragmentFirst(t: string, flow: nat, indent: int, m: Mark, v: string, s: string, end: Mark,
                      lead: string, trail: string, leading: bool)
    requires Fragment(v, flow) && Reads(t, m.index, v)
    ensures PlainChars(t, flow, indent, m, s, end, "", lead, trail, leading)
         == PlainChars(t, flow, indent, Advance(m, 1), s + Join("", lead, trail, leading) + [v[0]], Advance(m, 1),
                       "", "", "", false)
  {
    hide Join;
    FragmentChar(t, flow, m, v, 0);
    assert Skip(m) == Advance(m, 1);
  }

  // ---------- folds in plain scalars ----------

  /** Lines of a plain scalar begin with spaces, at least as many as the block around it asks for. */
  predicate PlainTurns(ts: seq<Turn>) {
    forall i, j :: 0 <= i < |ts| && 0 <= j < |ts[i].blanks| ==> ts[i].blanks[j] == ' '
  }

  lemma {:induction false} PlainBlankRun(t: string, flow: nat, indent: int, m: Mark, s: string, end: Mark, ws: string,
                                         lead: string, trail: string, leading: bool, gap: string)
    requires Blanks(gap) && Reads(t, m.index, gap) && (leading ==> forall i :: 0 <= i < |gap| ==> gap[i] == ' ')
    ensures PlainBlanks(t, flow, indent, m, s, end, ws, lead, trail, leading)
         == PlainBlanks(t, flow, indent, Advance(m, |gap|), s, end, if leading then ws else ws + gap, lead, trail,
                        leading)
    decreases |gap|
  {
    if gap == "" {
      assert Advance(m, 0) == m && ws + "" == ws;
    } else {
      ReadsFirst(t, m.index, gap);
      PlainBlankRun(t, flow, indent, Skip(m), s, end, if leading then ws else ws + [gap[0]], lead, trail, leading,
                    gap[1..]);
      assert Advance(Skip(m), |gap| - 1) == Advance(m, |gap|);
      assert ws + [gap[0]] + gap[1..] == ws + gap;
    }
  }

  lemma PlainBreakTaken(t: string, flow: nat, indent: int, m: Mark, s: string, end: Mark, ws: string,
                        lead: string, trail: string, leading: bool)
    requires IsBreak(Ch(t, m.index)) && !IsBlank(Ch(t, m.index))
    ensures PlainBlanks(t, flow, indent, m, s, end, ws, lead, trail, leading)
         == if leading then PlainBlanks(t, flow, indent, SkipLine(t, m), s, end, ws, lead,
                                        trail + BreakText(Ch(t, m.index)), true)
            else PlainBlanks(t, flow, indent, SkipLine(t, m), s, end, "", lead + BreakText(Ch(t, m.index)), trail, true)
  {
  }

  lemma {:induction false} PlainTurnsRun(t: string, flow: nat, indent: int, m: Mark, s: string, end: Mark,
                                         lead: string, trail: string, ts: seq<Turn>)
    requires TurnsOk(ts) && PlainTurns(ts) && Reads(t, m.index, TurnsText(ts))
    ensures PlainBlanks(t, flow, indent, m, s, end, "", lead, trail, true)
         == PlainBlanks(t, flow, indent, AfterTurns(m, ts), s, end, "", lead, trail + TurnsKept(ts), true)
    decreases |ts|
  {
    hide PlainBlanks, BreakText, BreakKept, TurnsText, Reads, SkipLine;
    if ts == [] {
      assert trail + "" == trail;
    } else {
      TurnsSplit(t, m.index, ts);
      BreakPassed(t, m, ts[0].break_);
      PlainBreakTaken(t, flow, indent, m, s, end, "", lead, trail, true);
      var m1, kept := SkipLine(t, m), BreakKept(ts[0].break_);
      PlainBlankRun(t, flow, indent, m1, s, end, "", lead, trail + kept, true, ts[0].blanks);
      PlainTurnsRun(t, flow, indent, Advance(m1, |ts[0].blanks|), s, end, lead, trail + kept, ts[1..]);
      assert trail + kept + TurnsKept(ts[1..]) == trail + TurnsKept(ts);
    }
  }

  /** A fold in a plain scalar, up to the next line's first character: what it stands for is still to be joined. */
  lemma {:induction false} PlainFoldIsRead(t: string, flow: nat, indent: int, m: Mark, s: string, end: Mark, b: Between)
    returns (lead: string, trail: string)
    requires b.Fold? && BetweenOk(b, true) && PlainTurns(b.turns) && Reads(t, m.index, BetweenText(b))
    requires var m1 := AfterBetween(m, b);
      && !IsBlankz(Ch(t, m1.index)) && Ch(t, m1.index) != '#' && !DocIndicatorAt(t, m1)
      && (flow == 0 ==> m1.column >= indent)
    ensures PlainChars(t, flow, indent, m, s, end, "", "", "", false)
         == PlainChars(t, flow, indent, AfterBetween(m, b), s, end, "", lead, trail, true)
    ensures Join("", lead, trail, true) == BetweenValue(b)
  {
    hide PlainChars, PlainBlanks, DocIndicatorAt, IsBlankz, Reads, TurnsText, TurnsKept, TurnsOk, Folded, Join,
      BreakKept, SkipLine, PlainTurns, BreakText;
    var ts := b.turns;
    ReadsPart(t, m.index, b.before, TurnsText(ts));
    var m1 := Advance(m, |b.before|);
    FirstTurn(t, m1.index, ts);
    BlankFirst(t, m.index, b.before);
    PlainBlanksBegin(t, flow, indent, m, s, end);
    PlainBlankRun(t, flow, indent, m, s, end, "", "", "", false, b.before);
    PlainBreakTaken(t, flow, indent, m1, s, end, "" + b.before, "", "", false);
    lead, trail := "" + BreakKept(ts[0].break_), TurnsKept(ts[1..]);
    TurnsSplit(t, m1.index, ts);
    BreakPassed(t, m1, ts[0].break_);
    FewerTurns(ts);
    var m2 := SkipLine(t, m1);
    PlainBlankRun(t, flow, indent, m2, s, end, "", lead, "", true, ts[0].blanks);
    var m3 := Advance(m2, |ts[0].blanks|);
    PlainTurnsRun(t, flow, indent, m3, s, end, lead, "", ts[1..]);
    assert "" + trail == trail;
    assert AfterTurns(m3, ts[1..]) == AfterTurns(m1, ts);
    PlainBlanksEnd(t, flow, indent, AfterBetween(m, b), s, end, lead, trail);
    FoldJoined(ts);
  }

  lemma FewerTurns(ts: seq<Turn>)
    requires ts != [] && PlainTurns(ts)
    ensures PlainTurns(ts[1..]) && forall j :: 0 <= j < |ts[0].blanks| ==> ts[0].blanks[j] == ' '
  {
  }

  lemma PlainBlanksBegin(t: string, flow: nat, indent: int, m: Mark, s: string, end: Mark)
    requires BlankOrBreak(Ch(t, m.index))
    ensures PlainChars(t, flow, indent, m, s, end, "", "", "", false)
         == PlainBlanks(t, flow, indent, m, s, end, "", "", "", false)
  {
  }

  lemma PlainBlanksEnd(t: string, flow: nat, indent: int, m: Mark, s: string, end: Mark, lead: string, trail: string)
    requires !IsBlankz(Ch(t, m.index)) && Ch(t, m.index) != '#' && !DocIndicatorAt(t, m)
    requires flow == 0 ==> m.column >= indent
    ensures PlainBlanks(t, flow, indent, m, s, end, "", lead, trail, true)
         == PlainChars(t, flow, indent, m, s, end, "", lead, trail, true)
  {
    hide PlainChars, DocIndicatorAt;
  }

  // ---------- lines of a plain scalar ----------

  datatype PlainLine = PlainLine(between: Between, v: string)

  predicate PlainLineOk(l: PlainLine, indent: int, flow: nat) {
    && l.between.Fold? && BetweenOk(l.between, true) && PlainTurns(l.between.turns) && Fragment(l.v, flow)
    && (flow == 0 ==> |l.between.turns[|l.between.turns| - 1].blanks| >= indent)
    && (l.between.turns[|l.between.turns| - 1].blanks == "" ==> l.v[0] != '-' && l.v[0] != '.')
  }

  predicate PlainLinesOk(ls: seq<PlainLine>, indent: int, flow: nat) {
    forall i :: 0 <= i < |ls| ==> PlainLineOk(ls[i], indent, flow)
  }

  function PlainLinesText(ls: seq<PlainLine>): string {
    if ls == [] then "" else BetweenText(ls[0].between) + ls[0].v + PlainLinesText(ls[1..])
  }

  function PlainLinesValue(ls: seq<PlainLine>, indent: int, flow: nat): string
    requires PlainLinesOk(ls, indent, flow)
  {
    if ls == [] then ""
    else
      assert PlainLineOk(ls[0], indent, flow);
      BetweenValue(ls[0].between) + ls[0].v + PlainLinesValue(ls[1..], indent, flow)
  }

  lemma {:induction false} PlainLineMark(t: string, m: Mark, l: PlainLine, indent: int, flow: nat)
    requires PlainLineOk(l, indent, flow)
    requires Reads(t, m.index, BetweenText(l.between)) && Reads(t, m.index + |BetweenText(l.between)|, l.v)
    ensures var m1 := AfterBetween(m, l.between);
      && m1.index == m.index + |BetweenText(l.between)|
      && !IsBlankz(Ch(t, m1.index)) && Ch(t, m1.index) != '#' && !DocIndicatorAt(t, m1)
      && (flow == 0 ==> m1.column >= indent)
  {
    AfterIndex(Advance(m, |l.between.before|), l.between.turns);
    FragmentChar(t, flow, AfterBetween(m, l.between), l.v, 0);
  }

  /** From one line of a plain scalar to its last. */
  lemma {:induction false} PlainLinesOn(t: string, flow: nat, indent: int, m: Mark, v: string, ls: seq<PlainLine>,
                                        s: string, end: Mark, lead: string, trail: string, leading: bool)
    returns (last: Mark)
    requires Fragment(v, flow) && PlainLinesOk(ls, indent, flow) && (flow == 0 ==> m.column + 1 >= indent)
    requires Reads(t, m.index, v) && Reads(t, m.index + |v|, PlainLinesText(ls))
    ensures PlainChars(t, flow, indent, m, s, end, "", lead, trail, leading)
         == PlainChars(t, flow, indent, last,
                       s + Join("", lead, trail, leading) + v + PlainLinesValue(ls, indent, flow),
                       last, "", "", "", false)
    ensures last.index == m.index + |v| + |PlainLinesText(ls)|
    decreases |ls|
  {
    hide PlainChars, Fragment, BetweenText, BetweenValue, DocIndicatorAt, IsBlankz, Join, Reads, AfterBetween;
    FragmentIsRead(t, flow, indent, m, v, s, end, lead, trail, leading);
    var m1 := Advance(m, |v|);
    var s1 := s + Join("", lead, trail, leading) + v;
    if ls == [] {
      last := m1;
      assert s1 + "" == s1;
    } else {
      var l := ls[0];
      assert PlainLineOk(l, indent, flow);
      var a, b := BetweenText(l.between), PlainLinesText(ls[1..]);
      assert PlainLinesText(ls) == a + (l.v + b);
      ReadsPart(t, m1.index, a, l.v + b);
      ReadsPart(t, m1.index + |a|, l.v, b);
      PlainLineMark(t, m1, l, indent, flow);
      var lead1, trail1 := PlainFoldIsRead(t, flow, indent, m1, s1, m1, l.between);
      var m2 := AfterBetween(m1, l.between);
      last := PlainLinesOn(t, flow, indent, m2, l.v, ls[1..], s1, m1, lead1, trail1, true);
      assert s1 + BetweenValue(l.between) + l.v + PlainLinesValue(ls[1..], indent, flow)
          == s1 + PlainLinesValue(ls, indent, flow);
    }
  }

  /** A plain scalar over several lines inside a flow collection is scanned to its lines, folded together. */
  lemma {:induction false} PlainLinesAreRead(t: string, flow: nat, m: Mark, v: string, ls: seq<PlainLine>, gap: string)
    returns (end: Mark, next: Mark, leads: bool)
    requires flow > 0 && Fragment(v, flow) && PlainLinesOk(ls, 0, flow) && Gap(gap)
    requires var k := m.index + |v|;
      && Reads(t, m.index, v) && Reads(t, k, PlainLinesText(ls)) && Reads(t, k + |PlainLinesText(ls)|, gap)
      && StopsFlowPlain(t, k + |PlainLinesText(ls)| + |gap|)
    requires !DocIndicatorAt(t, m)
    ensures ScanPlain(t, flow, -1, m) == PlainOk(v + PlainLinesValue(ls, 0, flow), end, next, leads)
    ensures next.index == m.index + |v| + |PlainLinesText(ls)| + |gap|
  {
    hide ScanPlain, PlainChars, DocIndicatorAt, Join, PlainLinesText, PlainLinesValue, StopsFlowPlain, PlainLinesOk,
      Fragment, Reads, Gap;
    PlainStarts(t, flow, -1, m, v);
    var last := PlainLinesOn(t, flow, 0, m, v, ls, "", m, "", "", false);
    NothingJoined();
    var value := v + PlainLinesValue(ls, 0, flow);
    assert "" + "" + v + PlainLinesValue(ls, 0, flow) == value;
    end, next, leads := ScalarEnds(t, flow, last, value, gap);
  }

  lemma PlainStarts(t: string, flow: nat, parent: int, m: Mark, v: string)
    requires Fragment(v, flow) && Reads(t, m.index, v) && !DocIndicatorAt(t, m)
    ensures ScanPlain(t, flow, parent, m) == PlainChars(t, flow, parent + 1, m, "", m, "", "", "", false)
  {
    hide PlainChars, DocIndicatorAt;
    FragmentChar(t, flow, m, v, 0);
  }

  lemma NothingJoined()
    ensures Join("", "", "", false) == ""
  {
  }

  lemma ScalarEnds(t: string, flow: nat, m: Mark, v: string, gap: string) returns (end: Mark, next: Mark, leads: bool)
    requires flow > 0 && Gap(gap) && Reads(t, m.index, gap) && StopsFlowPlain(t, m.index + |gap|)
    ensures PlainChars(t, flow, 0, m, v, m, "", "", "", false) == PlainOk(v, end, next, leads)
    ensures next.index == m.index + |gap|
  {
    end := m;
    if gap == "" {
      StopReached(t, flow, 0, m, v, m, "", "", "", false);
      next, leads := m, false;
    } else {
      ReadsFirst(t, m.index, gap);
      PlainBlanksBegin(t, flow, 0, m, v, m);
      next, leads := GapPassed(t, flow, 0, m, v, m, "", "", "", false, gap);
    }
  }
}
