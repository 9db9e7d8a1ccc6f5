/**
 How scalars may be written in YAML text, whoever writes it, and that they are scanned to what they
 stand for: quoted ones with any spelling of their characters (sections 5.7, 7.3.1 and 7.3.2 of
 YAML 1.2), and plain ones inside flow collections (section 7.3.3).
 */
module Spelling {
  import opened Chars
  import opened ScalarScan
  import opened FlowSteps

  // ---------- quoted scalars ----------

  /** A digit to the base 16, in either case. */
  datatype HexDigit = HexDigit(value: nat, upper: bool)

  datatype Unit = Raw(c: char) | Letter(letter: char) | Coded(digits: seq<HexDigit>)

  /** The character that an escape of one letter stands for. */
  function NamedChar(letter: char): Option16 {
    match letter
    case '0' => Code(0x00)
    case 'a' => Code(0x07)
    case 'b' => Code(0x08)
    case 't' => Code(0x09)
    case '\t' => Code(0x09)
    case 'n' => Code(0x0A)
    case 'v' => Code(0x0B)
    case 'f' => Code(0x0C)
    case 'r' => Code(0x0D)
    case 'e' => Code(0x1B)
    case ' ' => Code(0x20)
    case '"' => Code(0x22)
    case '\'' => Code(0x27)
    case '\\' => Code(0x5C)
    case 'N' => Code(0x85)
    case '_' => Code(0xA0)
    case 'L' => Code(0x2028)
    case 'P' => Code(0x2029)
    case _ => NoCode
  }

  datatype Option16 = NoCode | Code(x: nat)

  function DigitChar(d: HexDigit): char
    requires d.value < 16
  {
    if d.value < 10 then ('0' as int + d.value) as char
    else ((if d.upper then 'A' as int else 'a' as int) + d.value - 10) as char
  }

  predicate DigitsOk(ds: seq<HexDigit>) {
    forall i :: 0 <= i < |ds| ==> ds[i].value < 16
  }

  function DigitsText(ds: seq<HexDigit>): (s: string)
    requires DigitsOk(ds)
    ensures |s| == |ds|
  {
    seq(|ds|, i requires 0 <= i < |ds| => DigitChar(ds[i]))
  }

  /** The number written with these digits. */
  function DigitsValue(ds: seq<HexDigit>): nat {
    if ds == [] then 0 else DigitsValue(ds[..|ds| - 1]) * 16 + ds[|ds| - 1].value
  }

  /** What may be written between quotes of this kind, one unit for a character. */
  predicate UnitOk(u: Unit, single: bool) {
    match u
    case Raw(c) => !IsBreak(c) && c != NUL && (!single ==> c != '"' && c != '\\')
    case Letter(letter) => !single && NamedChar(letter).Code?
    case Coded(ds) =>
      && !single && DigitsOk(ds) && (|ds| == 2 || |ds| == 4 || |ds| == 8)
      && DigitsValue(ds) <= 0x10FFFF && !(0xD800 <= DigitsValue(ds) <= 0xDFFF)
  }

  predicate UnitsOk(us: seq<Unit>, single: bool) {
    forall i :: 0 <= i < |us| ==> UnitOk(us[i], single)
  }

  function UnitText(u: Unit, single: bool): (s: string)
    requires UnitOk(u, single)
    ensures s != ""
  {
    match u
    case Raw(c) => if single && c == '\'' then "''" else [c]
    case Letter(letter) => ['\\', letter]
    case Coded(ds) => ['\\', if |ds| == 2 then 'x' else if |ds| == 4 then 'u' else 'U'] + DigitsText(ds)
  }

  function UnitChar(u: Unit, single: bool): char
    requires UnitOk(u, single)
  {
    match u
    case Raw(c) => c
    case Letter(letter) => NamedChar(letter).x as char
    case Coded(ds) => DigitsValue(ds) as char
  }

  function UnitsText(us: seq<Unit>, single: bool): string
    requires UnitsOk(us, single)
  {
    if us == [] then "" else UnitText(us[0], single) + UnitsText(us[1..], single)
  }

  function UnitsValue(us: seq<Unit>, single: bool): string
    requires UnitsOk(us, single)
  {
    if us == [] then "" else [UnitChar(us[0], single)] + UnitsValue(us[1..], single)
  }

  function QuoteMark(single: bool): string {
    if single then "'" else "\""
  }

  // ---------- reading them ----------

  lemma {:induction false} NamedRead(t: string, k: nat, letter: char)
    requires NamedChar(letter).Code? && Ch(t, k + 1) == letter
    ensures ReadEscape(t, k) == Escape(NamedChar(letter).x as char, 2)
    ensures !IsBreak(letter)
  {
    var j := match letter
             case '0' => 0 case 'a' => 1 case 'b' => 2 case 't' => 3 case '\t' => 4 case 'n' => 5 case 'v' => 6
             case 'f' => 7 case 'r' => 8 case 'e' => 9 case ' ' => 10 case '"' => 11 case '\'' => 12 case '\\' => 13
             case 'N' => 14 case '_' => 15 case 'L' => 16 case _ => 17;
    assert SIMPLE[j].0 == letter;
    LookupAt(SIMPLE, 0, j);
  }

  lemma {:induction false} DigitRead(d: HexDigit)
    requires d.value < 16
    ensures IsHex(DigitChar(d)) && AsHex(DigitChar(d)) == d.value
  {
  }

  lemma {:induction false} DigitsRead(t: string, k: nat, ds: seq<HexDigit>)
    requires DigitsOk(ds) && Reads(t, k, DigitsText(ds))
    ensures HexRun(t, k, |ds|) && HexValue(t, k, |ds|) == DigitsValue(ds)
    decreases |ds|
  {
    forall j | k <= j < k + |ds| ensures IsHex(Ch(t, j)) {
      assert Ch(t, k + (j - k)) == DigitsText(ds)[j - k];
      DigitRead(ds[j - k]);
    }
    if ds != [] {
      var last := |ds| - 1;
      forall j | 0 <= j < last ensures Ch(t, k + j) == DigitsText(ds[..last])[j] {
        assert Ch(t, k + j) == DigitsText(ds)[j];
      }
      DigitsRead(t, k, ds[..last]);
      assert Ch(t, k + last) == DigitsText(ds)[last];
      DigitRead(ds[last]);
    }
  }

  lemma NoSuchName(c: char)
    requires c == 'x' || c == 'u' || c == 'U'
    ensures Lookup(SIMPLE, c, 0) == ""
  {
    LookupFinds(SIMPLE, c, 0);
  }

  lemma {:induction false} CodedRead(t: string, k: nat, ds: seq<HexDigit>)
    requires UnitOk(Coded(ds), false) && Reads(t, k, UnitText(Coded(ds), false))
    ensures ReadEscape(t, k) == Escape(DigitsValue(ds) as char, 2 + |ds|)
    ensures !IsBreak(Ch(t, k + 1))
  {
    var text := UnitText(Coded(ds), false);
    var head := text[..2];
    assert text == head + DigitsText(ds) && |head| == 2;
    ReadsPart(t, k, head, DigitsText(ds));
    ReadsFirst(t, k, head);
    DigitsRead(t, k + 2, ds);
    NoSuchName(Ch(t, k + 1));
  }

  /** What is not a blank is taken in one step, from outside a run of blanks. */
  lemma {:induction false} UnitStep(t: string, single: bool, m: Mark, s: string, u: Unit)
    requires UnitOk(u, single) && Reads(t, m.index, UnitText(u, single))
    requires u.Raw? ==> !IsBlank(u.c)
    ensures FlowChars(t, single, m, s)
         == FlowChars(t, single, Advance(m, |UnitText(u, single)|), s + [UnitChar(u, single)])
    ensures !IsBlankz(Ch(t, m.index))
  {
    hide HexRun, HexValue, FlowBlanks, DigitsText, DigitsValue;
    ReadsFirst(t, m.index, UnitText(u, single));
    match u
    case Raw(c) =>
      if single && c == '\'' {
        assert s + "'" == s + [c];
        assert Skip(Skip(m)) == Advance(m, 2);
      } else {
        CharStep(t, single, m, s);
      }
    case Letter(letter) => NamedRead(t, m.index, letter);
    case Coded(ds) => CodedRead(t, m.index, ds);
  }

  lemma {:induction false} UnitsSplit(t: string, k: nat, us: seq<Unit>, single: bool)
    requires UnitsOk(us, single) && us != [] && Reads(t, k, UnitsText(us, single))
    ensures UnitOk(us[0], single) && UnitsOk(us[1..], single)
    ensures var text := UnitText(us[0], single);
      Reads(t, k, text) && Reads(t, k + |text|, UnitsText(us[1..], single))
      && |UnitsText(us, single)| == |text| + |UnitsText(us[1..], single)|
    ensures UnitsValue(us, single) == [UnitChar(us[0], single)] + UnitsValue(us[1..], single)
  {
    hide UnitText, UnitChar, UnitOk;
    ReadsPart(t, k, UnitText(us[0], single), UnitsText(us[1..], single));
  }

  lemma NoUnits(single: bool)
    ensures UnitsText([], single) == "" && UnitsValue([], single) == ""
  {
  }

  lemma Joined(s: string, ws: string, c: char, more: string)
    ensures s + (ws + [c]) + more == s + ws + ([c] + more)
    ensures s + ws + [c] + "" + more == s + ws + ([c] + more)
    ensures s + "" == s && s + ws + "" == s + ws
  {
  }

  predicate EndsBlank(us: seq<Unit>) {
    us != [] && us[|us| - 1].Raw? && IsBlank(us[|us| - 1].c)
  }

  /** Units up to what is no blank, or a break behind no blank: all of them are taken, blanks among them. */
  lemma {:induction false} UnitsOn(t: string, single: bool, m: Mark, s: string, ws: string, inside: bool, us: seq<Unit>)
    requires UnitsOk(us, single) && Reads(t, m.index, UnitsText(us, single))
    requires if inside then m.column > 0 else ws == ""
    requires EndsBlank(us) || (us == [] && inside) ==> !IsBlankz(Ch(t, m.index + |UnitsText(us, single)|))
    ensures (if inside then FlowBlanks(t, single, m, s, ws, "", "", false) else FlowChars(t, single, m, s))
         == FlowChars(t, single, Advance(m, |UnitsText(us, single)|), s + ws + UnitsValue(us, single))
    decreases |us|
  {
    hide UnitText, UnitChar, UnitOk, FlowTop, FlowChars, FlowBlanks, UnitsText, UnitsValue, UnitsOk, Reads;
    if us == [] {
      NoUnits(single);
      Joined(s, ws, ' ', "");
      assert Advance(m, 0) == m;
      if inside { BlanksEnd(t, single, m, s, ws); }
    } else {
      UnitsSplit(t, m.index, us, single);
      var u, n := us[0], |UnitText(us[0], single)|;
      var c, more := UnitChar(u, single), UnitsValue(us[1..], single);
      Joined(s, ws, c, more);
      if |us| > 1 { assert us[|us| - 1] == us[1..][|us| - 2]; }
      if u.Raw? && IsBlank(u.c) {
        if us[1..] == [] { NoUnits(single); }
        RawBlank(t, single, m, u);
        BlankTaken(t, single, m, s, ws, u.c);
        UnitsOn(t, single, Advance(m, n), s, ws + [u.c], true, us[1..]);
        assert c == u.c by { RawChar(u, single); }
      } else {
        UnitStep(t, single, m, s + ws, u);
        if inside { BlanksEnd(t, single, m, s, ws); }
        Joined(s, ws, c, more);
        UnitsOn(t, single, Advance(m, n), s + ws + [c], "", false, us[1..]);
      }
      assert Advance(Advance(m, n), |UnitsText(us[1..], single)|) == Advance(m, |UnitsText(us, single)|);
    }
  }

  lemma {:induction false} RawChar(u: Unit, single: bool)
    requires UnitOk(u, single) && u.Raw?
    ensures UnitChar(u, single) == u.c
  {
  }

  lemma {:induction false} RawBlank(t: string, single: bool, m: Mark, u: Unit)
    requires UnitOk(u, single) && u.Raw? && IsBlank(u.c) && Reads(t, m.index, UnitText(u, single))
    ensures Ch(t, m.index) == u.c && UnitText(u, single) == [u.c]
  {
    ReadsFirst(t, m.index, UnitText(u, single));
  }

  lemma BlankTaken(t: string, single: bool, m: Mark, s: string, ws: string, c: char)
    requires Ch(t, m.index) == c && IsBlank(c)
    ensures FlowBlanks(t, single, m, s, ws, "", "", false)
         == FlowBlanks(t, single, Skip(m), s, ws + [c], "", "", false)
    ensures FlowChars(t, single, m, s) == FlowBlanks(t, single, Skip(m), s, [c], "", "", false)
    ensures Skip(m) == Advance(m, 1) && "" + [c] == [c]
  {
    assert "" + [c] == [c];
  }

  lemma BlanksEnd(t: string, single: bool, m: Mark, s: string, ws: string)
    requires !IsBlankz(Ch(t, m.index)) && m.column > 0
    ensures FlowBlanks(t, single, m, s, ws, "", "", false) == FlowChars(t, single, m, s + ws)
  {
    hide FlowChars;
  }

  lemma QuoteTaken(t: string, single: bool, m: Mark, s: string)
    requires Ch(t, m.index) == QuoteMark(single)[0] && (single ==> Ch(t, m.index + 1) != '\'')
    ensures FlowChars(t, single, m, s) == FlowOk(s, Skip(m))
  {
  }

  /** A quoted scalar on one line, however its characters are written, is scanned to what they stand for. */
  lemma {:induction false} QuotedIsRead(t: string, single: bool, m: Mark, us: seq<Unit>)
    requires UnitsOk(us, single)
    requires var q := QuoteMark(single); Reads(t, m.index, q + UnitsText(us, single) + q)
    requires single ==> Ch(t, m.index + |UnitsText(us, single)| + 2) != '\''
    ensures ScanFlow(t, single, m) == FlowOk(UnitsValue(us, single), Advance(m, |UnitsText(us, single)| + 2))
  {
    hide UnitText, UnitChar, UnitOk, FlowChars, FlowBlanks;
    var q, text := QuoteMark(single), UnitsText(us, single);
    assert q + text + q == q + (text + q);
    ReadsPart(t, m.index, q, text + q);
    ReadsPart(t, m.index + 1, text, q);
    ReadsFirst(t, m.index + 1 + |text|, q);
    UnitsOn(t, single, Skip(m), "", "", false, us);
    QuoteTaken(t, single, Advance(Skip(m), |text|), UnitsValue(us, single));
    FirstIsThere(t, Skip(m), us, single);
    assert "" + "" + UnitsValue(us, single) == UnitsValue(us, single);
    assert Skip(Advance(Skip(m), |text|)) == Advance(m, |text| + 2);
  }

  /** The text goes on behind the opening quote. */
  lemma {:induction false} FirstIsThere(t: string, m: Mark, us: seq<Unit>, single: bool)
    requires UnitsOk(us, single) && Reads(t, m.index, UnitsText(us, single)) && (us == [] ==> Ch(t, m.index) != NUL)
    ensures Ch(t, m.index) != NUL
  {
    hide DigitsText, DigitsValue;
    if us != [] {
      UnitsSplit(t, m.index, us, single);
      ReadsFirst(t, m.index, UnitText(us[0], single));
    }
  }

  // ---------- plain scalars inside flow collections ----------

  predicate Gap(s: string) {
    forall i :: 0 <= i < |s| ==> BlankOrBreak(s[i])
  }

  predicate Blanks(s: string) {
    forall i :: 0 <= i < |s| ==> IsBlank(s[i])
  }

  predicate Tabless(s: string) {
    forall i :: 0 <= i < |s| ==> s[i] != '\t'
  }

  /** The character at i is one that a plain scalar in a flow collection may hold there. */
  predicate PlainCharAt(v: string, i: nat)
    requires i < |v|
  {
    && !IsBreak(v[i]) && v[i] != NUL && v[i] != '\t' && v[i] !in ",?[]{}"
    && (v[i] == ':' ==> i + 1 < |v| && v[i + 1] != ' ')
    && (v[i] == '#' ==> i > 0 && v[i - 1] != ' ')
  }

  predicate FlowPlain(v: string) {
    && v != "" && v[0] !in "&*!|>'\"%@`: " && v[|v| - 1] != ' '
    && (v[0] == '-' ==> |v| > 1 && v[1] != ' ')
    && !(|v| >= 3 && (v[0] == '-' || v[0] == '.') && v[1] == v[0] && v[2] == v[0])
    && forall i :: 0 <= i < |v| ==> PlainCharAt(v, i)
  }

  /** What ends a plain scalar there: a flow indicator, or a colon with a blank behind it. */
  predicate StopsFlowPlain(t: string, k: nat) {
    (Ch(t, k) in ",?[]{}" || (Ch(t, k) == ':' && IsBlankz(Ch(t, k + 1)))) && Ch(t, k) != NUL
  }

  lemma StopReached(t: string, flow: nat, indent: int, m: Mark, v: string, end: Mark, ws: string,
                    lead: string, trail: string, leading: bool)
    requires flow > 0 && StopsFlowPlain(t, m.index)
    ensures PlainChars(t, flow, indent, m, v, end, ws, lead, trail, leading) == PlainOk(v, end, m, leading)
    ensures PlainBlanks(t, flow, indent, m, v, end, ws, lead, trail, leading) == PlainOk(v, end, m, leading)
  {
    assert !BlankOrBreak(Ch(t, m.index)) && Ch(t, m.index) != '-' && Ch(t, m.index) != '.' && Ch(t, m.index) != '#';
    assert PlainChars(t, flow, indent, m, v, end, ws, lead, trail, leading) == PlainOk(v, end, m, leading);
    assert PlainTop(t, flow, indent, m, v, end, ws, lead, trail, leading) == PlainOk(v, end, m, leading);
  }

  /** Past blanks and breaks, to the character that ends the scalar. */
  lemma {:induction false} GapPassed(t: string, flow: nat, indent: int, m: Mark, v: string, end: Mark, ws: string,
                                     lead: string, trail: string, leading: bool, gap: string)
    returns (next: Mark, leads: bool)
    requires flow > 0 && Gap(gap) && Reads(t, m.index, gap) && StopsFlowPlain(t, m.index + |gap|)
    requires indent <= 0 || Tabless(gap)
    ensures PlainBlanks(t, flow, indent, m, v, end, ws, lead, trail, leading) == PlainOk(v, end, next, leads)
    ensures next.index == m.index + |gap| && (Blanks(gap) ==> next.line == m.line)
    decreases |gap|
  {
    if gap == "" {
      next, leads := m, leading;
      StopReached(t, flow, indent, m, v, end, ws, lead, trail, leading);
    } else {
      ReadsFirst(t, m.index, gap);
      var c := gap[0];
      if IsBlank(c) {
        next, leads := GapPassed(t, flow, indent, Skip(m), v, end, if leading then ws else ws + [c], lead, trail,
                                 leading, gap[1..]);
      } else {
        next, leads := GapBreak(t, flow, indent, m, v, end, ws, lead, trail, leading, gap);
      }
    }
  }

  lemma {:induction false} GapBreak(t: string, flow: nat, indent: int, m: Mark, v: string, end: Mark, ws: string,
                                    lead: string, trail: string, leading: bool, gap: string)
    returns (next: Mark, leads: bool)
    requires flow > 0 && Gap(gap) && Reads(t, m.index, gap) && StopsFlowPlain(t, m.index + |gap|)
    requires (indent <= 0 || Tabless(gap)) && gap != "" && IsBreak(gap[0]) && Ch(t, m.index) == gap[0]
    ensures PlainBlanks(t, flow, indent, m, v, end, ws, lead, trail, leading) == PlainOk(v, end, next, leads)
    ensures next.index == m.index + |gap|
    decreases |gap|, 0
  {
    var c := gap[0];
    ReadsFirst(t, m.index, gap);
    var two := c == '\r' && Ch(t, m.index + 1) == '\n';
    if two {
      assert |gap| > 1;
      ReadsFirst(t, m.index + 1, gap[1..]);
      assert gap[1..][1..] == gap[2..];
      next, leads := GapPassed(t, flow, indent, SkipLine(t, m), v, end, if leading then ws else "",
                               if leading then lead else lead + BreakText(c),
                               if leading then trail + BreakText(c) else trail, true, gap[2..]);
    } else {
      next, leads := GapPassed(t, flow, indent, SkipLine(t, m), v, end, if leading then ws else "",
                               if leading then lead else lead + BreakText(c),
                               if leading then trail + BreakText(c) else trail, true, gap[1..]);
    }
  }

  /** A plain scalar to be read: its text, what separates it from what ends it, and where it begins. */
  datatype PlainJob = PlainJob(t: string, flow: nat, indent: int, m: Mark, v: string, gap: string)

  predicate JobOk(j: PlainJob) {
    && j.flow > 0 && (j.indent <= 0 || Tabless(j.gap)) && FlowPlain(j.v) && Gap(j.gap)
    && StopsFlowPlain(j.t, j.m.index + |j.v| + |j.gap|)
  }

  ghost predicate JobText(j: PlainJob) {
    Reads(j.t, j.m.index, j.v) && Reads(j.t, j.m.index + |j.v|, j.gap)
  }

  lemma CharsBehind(j: PlainJob, end: Mark) returns (end1: Mark, next: Mark, leads: bool)
    requires JobOk(j) && JobText(j)
    ensures PlainChars(j.t, j.flow, j.indent, Advance(j.m, |j.v|), j.v, end, "", "", "", false)
         == PlainOk(j.v, end1, next, leads)
    ensures next.index == j.m.index + |j.v| + |j.gap| && (Blanks(j.gap) ==> next.line == j.m.line)
  {
    var m := Advance(j.m, |j.v|);
    end1 := end;
    if j.gap == "" {
      StopReached(j.t, j.flow, j.indent, m, j.v, end, "", "", "", false);
      next, leads := m, false;
    } else {
      ReadsFirst(j.t, m.index, j.gap);
      next, leads := GapPassed(j.t, j.flow, j.indent, m, j.v, end, "", "", "", false, j.gap);
    }
  }

  /** The character at i, and what it is not. */
  lemma JobChar(j: PlainJob, i: nat)
    requires JobOk(j) && JobText(j) && i < |j.v|
    ensures var k := j.m.index + i;
      && Ch(j.t, k) == j.v[i] && !IsBreak(j.v[i]) && j.v[i] != NUL && j.v[i] != '\t'
      && (j.v[i] != ' ' ==> !EndsPlain(j.t, j.flow, k))
      && (j.v[i] == '#' ==> i > 0 && j.v[i - 1] != ' ')
  {
    hide StopsFlowPlain;
    assert Ch(j.t, j.m.index + i) == j.v[i];
    assert PlainCharAt(j.v, i);
    if i + 1 < |j.v| {
      assert Ch(j.t, j.m.index + (i + 1)) == j.v[i + 1];
      assert PlainCharAt(j.v, i + 1);
    }
  }

  lemma PlainTaken(j: PlainJob, i: nat, s: string, end: Mark, ws: string)
    requires JobOk(j) && JobText(j) && i < |j.v| && j.v[i] != ' '
    ensures PlainChars(j.t, j.flow, j.indent, Advance(j.m, i), s, end, ws, "", "", false)
         == PlainChars(j.t, j.flow, j.indent, Advance(j.m, i + 1), s + ws + [j.v[i]], Advance(j.m, i + 1), "", "",
                       "", false)
  {
    JobChar(j, i);
    assert Skip(Advance(j.m, i)) == Advance(j.m, i + 1);
  }

  /** Behind spaces a character goes on with the scalar. */
  lemma PlainResumed(j: PlainJob, i: nat, s: string, end: Mark, ws: string)
    requires JobOk(j) && JobText(j) && 0 < i < |j.v| && j.v[i] != ' ' && j.v[i - 1] == ' '
    ensures PlainBlanks(j.t, j.flow, j.indent, Advance(j.m, i), s, end, ws, "", "", false)
         == PlainChars(j.t, j.flow, j.indent, Advance(j.m, i), s, end, ws, "", "", false)
  {
    hide PlainChars;
    JobChar(j, i);
  }

  lemma PlainSpace(j: PlainJob, i: nat, s: string, end: Mark, ws: string)
    requires JobOk(j) && JobText(j) && i < |j.v| && j.v[i] == ' '
    ensures PlainBlanks(j.t, j.flow, j.indent, Advance(j.m, i), s, end, ws, "", "", false)
         == PlainBlanks(j.t, j.flow, j.indent, Advance(j.m, i + 1), s, end, ws + " ", "", "", false)
    ensures PlainChars(j.t, j.flow, j.indent, Advance(j.m, i), s, end, "", "", "", false)
         == PlainBlanks(j.t, j.flow, j.indent, Advance(j.m, i + 1), s, end, " ", "", "", false)
  {
    JobChar(j, i);
    assert Skip(Advance(j.m, i)) == Advance(j.m, i + 1);
    assert "" + [' '] == " " && ws + [' '] == ws + " ";
  }

  lemma {:induction false} PlainFrom(j: PlainJob, i: nat, s: string, end: Mark, ws: string)
    returns (end1: Mark, next: Mark, leads: bool)
    requires JobOk(j) && JobText(j) && i <= |j.v| && s + ws == j.v[..i]
    requires ws == "" || (i < |j.v| && j.v[i - 1] == ' ')
    ensures var at := Advance(j.m, i);
      (if ws == "" then PlainChars(j.t, j.flow, j.indent, at, s, end, ws, "", "", false)
       else PlainBlanks(j.t, j.flow, j.indent, at, s, end, ws, "", "", false))
        == PlainOk(j.v, end1, next, leads)
    ensures next.index == j.m.index + |j.v| + |j.gap| && (Blanks(j.gap) ==> next.line == j.m.line)
    decreases |j.v| - i
  {
    hide PlainChars, PlainBlanks, JobOk, JobText;
    if i == |j.v| {
      assert j.v[..i] == j.v && s + "" == s;
      end1, next, leads := CharsBehind(j, end);
    } else {
      assert j.v[..i + 1] == j.v[..i] + [j.v[i]];
      if j.v[i] == ' ' {
        LastIsNoSpace(j);
        PlainSpace(j, i, s, end, ws);
        assert s + (ws + " ") == j.v[..i + 1];
        assert ws == "" ==> ws + " " == " ";
        end1, next, leads := PlainFrom(j, i + 1, s, end, ws + " ");
      } else {
        if ws != "" { PlainResumed(j, i, s, end, ws); }
        PlainTaken(j, i, s, end, ws);
        assert s + ws + [j.v[i]] + "" == j.v[..i + 1];
        end1, next, leads := PlainFrom(j, i + 1, s + ws + [j.v[i]], Advance(j.m, i + 1), "");
      }
    }
  }

  lemma LastIsNoSpace(j: PlainJob)
    requires JobOk(j)
    ensures j.v != "" && j.v[|j.v| - 1] != ' '
  {
  }

  /** No document indicator, and no comment, stands where the scalar begins. */
  lemma PlainBegins(j: PlainJob)
    requires JobOk(j) && JobText(j)
    ensures !DocIndicatorAt(j.t, j.m) && Ch(j.t, j.m.index) != '#'
  {
    hide StopsFlowPlain;
    var v := j.v;
    JobChar(j, 0);
    if |v| > 1 { JobChar(j, 1); }
    if |v| > 2 { JobChar(j, 2); }
    if |v| < 3 { BehindIsOther(j); }
  }

  lemma BehindIsOther(j: PlainJob)
    requires JobOk(j) && JobText(j)
    ensures var c := Ch(j.t, j.m.index + |j.v|); c != '-' && c != '.'
  {
    var k := j.m.index + |j.v|;
    if j.gap != "" { ReadsFirst(j.t, k, j.gap); }
  }

  /**
   A plain scalar inside a flow collection is scanned to its text, spaces inside it included, and the
   scan stops at the indicator behind it, past blanks and line breaks.
   */
  lemma PlainIsRead(j: PlainJob) returns (end: Mark, next: Mark, leads: bool)
    requires JobOk(j) && JobText(j)
    ensures ScanPlain(j.t, j.flow, j.indent - 1, j.m) == PlainOk(j.v, end, next, leads)
    ensures next.index == j.m.index + |j.v| + |j.gap| && (Blanks(j.gap) ==> next.line == j.m.line)
  {
    hide PlainChars, DocIndicatorAt, JobOk, JobText;
    PlainBegins(j);
    assert Advance(j.m, 0) == j.m && j.v[..0] == "" == "" + "";
    end, next, leads := PlainFrom(j, 0, "", j.m, "");
  }
}
