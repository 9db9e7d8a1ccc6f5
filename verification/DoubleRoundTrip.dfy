/**
 Scanning what the double-quoted writer wrote gives the value back, for every value and
 every width at which the writer folds. Writer and scanner move in step: the scanner's
 mark is the position of the pen.
 */
module DoubleRoundTrip {
  import opened Chars
  import opened Pens
  import opened ScalarWriters
  import opened ScalarScan
  import opened FlowSteps

  lemma {:induction false} DoubleGrows(p: Pen, v: string, i: nat, spaces: bool,
                                       allow: bool, indent: int, cfg: Config)
    requires i <= |v|
    ensures p.out <= DoubleBody(p, v, i, spaces, allow, indent, cfg).out
    ensures p.line <= DoubleBody(p, v, i, spaces, allow, indent, cfg).line
    decreases |v| - i
  {
    if i < |v| {
      DoubleGrows(DoubleStep(p, v, i, spaces, allow, indent, cfg),
                  v, i + 1, PlainSpace(v, i, cfg), allow, indent, cfg);
    }
  }

  // ---------- escapes ----------

  ghost function Pow16(n: nat): nat {
    if n == 0 then 1 else 16 * Pow16(n - 1)
  }

  lemma {:induction false} HexBack(t: string, k: nat, x: nat, n: nat)
    requires x < Pow16(n) && Reads(t, k, HexDigits(x, n))
    ensures HexRun(t, k, n) && HexValue(t, k, n) == x
  {
    if n > 0 {
      ReadsPart(t, k, HexDigits(x / 16, n - 1), [HexDigit(x % 16)]);
      HexBack(t, k, x / 16, n - 1);
      ReadsFirst(t, k + (n - 1), [HexDigit(x % 16)]);
    }
  }

  lemma NamedRead(c: char)
    requires Lookup(NAMED, c, 0) != ""
    ensures Lookup(SIMPLE, Lookup(NAMED, c, 0)[0], 0) == [c]
    ensures !IsBreak(Lookup(NAMED, c, 0)[0])
  {
    LookupFinds(NAMED, c, 0);
    var j :| 0 <= j < |NAMED| && NAMED[j].0 == c && Lookup(NAMED, c, 0) == [NAMED[j].1];
    // SIMPLE has two entries more before the tenth case and one more before the eleventh
    var i := if j < 4 then j else if j < 9 then j + 1 else if j == 9 then 11 else j + 3;
    assert SIMPLE[i] == (NAMED[j].1, NAMED[j].0);
    LookupAt(SIMPLE, 0, i);
  }

  lemma HexRead(t: string, k: nat, x: nat)
    requires IsScalarValue(x) && Reads(t, k + 1, HexEscape(x))
    ensures ReadEscape(t, k) == Escape(x as char, 1 + |HexEscape(x)|)
    ensures !IsBreak(Ch(t, k + 1))
  {
    var e := HexEscape(x);
    var n := |e| - 1;
    ReadsFirst(t, k + 1, e);
    assert e[1..] == HexDigits(x, n);
    HexRange();
    HexBack(t, k + 2, x, n);
    LookupFinds(SIMPLE, e[0], 0);
  }

  lemma EscapeRead(t: string, k: nat, c: char)
    requires Reads(t, k, EscapeText(c))
    ensures ReadEscape(t, k) == Escape(c, |EscapeText(c)|)
    ensures Ch(t, k) == '\\' && !IsBreak(Ch(t, k + 1))
  {
    ReadsFirst(t, k, EscapeText(c));
    var name := Lookup(NAMED, c, 0);
    LookupFinds(NAMED, c, 0);
    assert EscapeText(c)[1..] == if name != "" then name else HexEscape(c as int);
    if name != "" {
      NamedRead(c);
      ReadsFirst(t, k + 1, name);
    } else {
      HexRead(t, k, c as int);
    }
  }

  lemma HexRange()
    ensures Pow16(2) == 0x100 && Pow16(4) == 0x1_0000 && Pow16(8) == 0x1_0000_0000
  {
    assert Pow16(3) == 4096 && Pow16(5) == 1048576 && Pow16(6) == 16777216 && Pow16(7) == 268435456;
  }

  lemma EscapeStep(t: string, m: Mark, s: string, c: char)
    requires Reads(t, m.index, EscapeText(c))
    ensures FlowChars(t, false, m, s) == FlowChars(t, false, Advance(m, |EscapeText(c)|), s + [c])
  {
    EscapeRead(t, m.index, c);
  }

  lemma QuoteStep(t: string, m: Mark, s: string)
    requires Ch(t, m.index) == '"'
    ensures FlowChars(t, false, m, s) == FlowOk(s, Skip(m))
  {
  }

  // ---------- the body ----------

  /** Between characters of the body the next fold is sure to break the line. */
  ghost predicate DoubleReady(p: Pen, spaces: bool, indent: int) {
    && p.column >= 1
    && indent >= 1
    && (p.indention ==> p.column > indent || (spaces && p.column == indent))
  }

  /** The text goes on with the rest of the body and the closing quote. */
  ghost predicate DoubleAhead(t: string, p: Pen, v: string, i: nat, spaces: bool,
                              allow: bool, indent: int, cfg: Config)
    requires i <= |v|
  {
    DoubleBody(p, v, i, spaces, allow, indent, cfg).out + "\"" <= t
  }

  ghost function DoubleEnd(p: Pen, v: string, i: nat, spaces: bool,
                           allow: bool, indent: int, cfg: Config): FlowResult
    requires i <= |v|
  {
    FlowOk(v, Skip(MarkOf(DoubleBody(p, v, i, spaces, allow, indent, cfg))))
  }

  function Written(v: string, i: nat, cfg: Config): string
    requires i < |v|
  {
    if NeedsEscape(v, i, cfg) then EscapeText(v[i]) else [v[i]]
  }

  /** A turn that does not fold puts what it writes on the line and in the text. */
  lemma DoubleWrites(t: string, p: Pen, v: string, i: nat, spaces: bool,
                     allow: bool, indent: int, cfg: Config)
    requires i < |v| && DoubleReady(p, spaces, indent)
    requires DoubleAhead(t, p, v, i, spaces, allow, indent, cfg)
    requires !(PlainSpace(v, i, cfg) && FoldsDouble(p, v, i, allow, spaces, cfg))
    ensures var q := DoubleStep(p, v, i, spaces, allow, indent, cfg);
      && MarkOf(q) == Advance(MarkOf(p), |Written(v, i, cfg)|)
      && DoubleReady(q, PlainSpace(v, i, cfg), indent)
    ensures Reads(t, |p.out|, Written(v, i, cfg))
  {
    var q := DoubleStep(p, v, i, spaces, allow, indent, cfg);
    var w := Written(v, i, cfg);
    assert q.out == p.out + w;
    DoubleGrows(q, v, i + 1, PlainSpace(v, i, cfg), allow, indent, cfg);
    ReadsAfter(t, p.out, w);
  }

  /** Unless it is a plain space, what comes next in the body ends a run of blanks. */
  lemma DoubleNext(t: string, p: Pen, v: string, i: nat, spaces: bool,
                   allow: bool, indent: int, cfg: Config)
    requires i <= |v| && DoubleReady(p, spaces, indent)
    requires DoubleAhead(t, p, v, i, spaces, allow, indent, cfg)
    requires i < |v| ==> !PlainSpace(v, i, cfg)
    ensures !IsBlankz(Ch(t, |p.out|))
  {
    if i == |v| {
      ReadsAfter(t, p.out, "\"");
      ReadsFirst(t, |p.out|, "\"");
    } else {
      DoubleWrites(t, p, v, i, spaces, allow, indent, cfg);
      ReadsFirst(t, |p.out|, Written(v, i, cfg));
    }
  }

  lemma DoubleCharRead(t: string, m: Mark, v: string, i: nat, cfg: Config)
    requires i < |v| && Reads(t, m.index, Written(v, i, cfg)) && !PlainSpace(v, i, cfg)
    ensures FlowChars(t, false, m, v[..i])
         == FlowChars(t, false, Advance(m, |Written(v, i, cfg)|), v[..i + 1])
  {
    assert v[..i] + [v[i]] == v[..i + 1];
    if NeedsEscape(v, i, cfg) {
      EscapeStep(t, m, v[..i], v[i]);
    } else {
      ReadsFirst(t, m.index, [v[i]]);
      CharStep(t, false, m, v[..i]);
    }
  }

  lemma {:induction false} DoubleChars(t: string, p: Pen, v: string, i: nat, spaces: bool,
                                       allow: bool, indent: int, cfg: Config)
    requires i <= |v| && DoubleReady(p, spaces, indent)
    requires DoubleAhead(t, p, v, i, spaces, allow, indent, cfg)
    ensures FlowChars(t, false, MarkOf(p), v[..i]) == DoubleEnd(p, v, i, spaces, allow, indent, cfg)
    decreases |v| - i, 0
  {
    if i == |v| {
      ReadsAfter(t, p.out, "\"");
      ReadsFirst(t, |p.out|, "\"");
      assert v[..i] == v;
      QuoteStep(t, MarkOf(p), v);
    } else if PlainSpace(v, i, cfg) && FoldsDouble(p, v, i, allow, spaces, cfg) {
      DoubleFold(t, p, v, i, spaces, allow, indent, cfg);
    } else {
      var q := DoubleStep(p, v, i, spaces, allow, indent, cfg);
      DoubleWrites(t, p, v, i, spaces, allow, indent, cfg);
      if PlainSpace(v, i, cfg) {
        ReadsFirst(t, |p.out|, " ");
        BlankStep(t, false, MarkOf(p), v[..i], "");
        assert v[i..i + 1] == " ";
        DoubleBlanks(t, q, v, i, i + 1, allow, indent, cfg);
      } else {
        DoubleCharRead(t, MarkOf(p), v, i, cfg);
        DoubleChars(t, q, v, i + 1, false, allow, indent, cfg);
      }
    }
  }

  /** The same after the blanks v[j..i] were written and read. */
  lemma {:induction false} DoubleBlanks(t: string, p: Pen, v: string, j: nat, i: nat,
                                        allow: bool, indent: int, cfg: Config)
    requires j < i <= |v| && DoubleReady(p, true, indent)
    requires DoubleAhead(t, p, v, i, true, allow, indent, cfg)
    ensures FlowBlanks(t, false, MarkOf(p), v[..j], v[j..i], "", "", false)
         == DoubleEnd(p, v, i, true, allow, indent, cfg)
    decreases |v| - i, 1
  {
    if i < |v| && PlainSpace(v, i, cfg) {
      var q := DoubleStep(p, v, i, true, allow, indent, cfg);
      DoubleGrows(q, v, i + 1, true, allow, indent, cfg);
      ReadsAfter(t, p.out, " ");
      ReadsFirst(t, |p.out|, " ");
      BlankStep(t, false, MarkOf(p), v[..j], v[j..i]);
      assert v[j..i] + " " == v[j..i + 1];
      DoubleBlanks(t, q, v, j, i + 1, allow, indent, cfg);
    } else {
      DoubleNext(t, p, v, i, true, allow, indent, cfg);
      JoinStep(t, false, MarkOf(p), v[..j], v[j..i], "", "", false);
      assert v[..j] + v[j..i] == v[..i];
      DoubleChars(t, p, v, i, true, allow, indent, cfg);
    }
  }

  /** A second space after a fold is kept behind a backslash. */
  lemma FoldedSpaceRead(t: string, q: Pen, s: string)
    requires q.out + "\\ " <= t && q.column >= 1
    ensures FlowBlanks(t, false, MarkOf(q), s, "", "\n", "", true)
         == FlowChars(t, false, MarkOf(Put(Put(q, '\\'), ' ')), s + " " + " ")
  {
    ReadsAfter(t, q.out, "\\ ");
    ReadsFirst(t, |q.out|, "\\ ");
    JoinStep(t, false, MarkOf(q), s, "", "\n", "", true);
    LookupAt(SIMPLE, 0, 10);
    assert Advance(MarkOf(q), 2) == MarkOf(Put(Put(q, '\\'), ' '));
  }

  lemma {:induction false} DoubleFold(t: string, p: Pen, v: string, i: nat, spaces: bool,
                                      allow: bool, indent: int, cfg: Config)
    requires i < |v| && DoubleReady(p, spaces, indent)
    requires PlainSpace(v, i, cfg) && FoldsDouble(p, v, i, allow, spaces, cfg)
    requires DoubleAhead(t, p, v, i, spaces, allow, indent, cfg)
    ensures FlowChars(t, false, MarkOf(p), v[..i]) == DoubleEnd(p, v, i, spaces, allow, indent, cfg)
    decreases |v| - i - 1, 2
  {
    var q := WriteIndent(p, indent);
    var q' := DoubleStep(p, v, i, spaces, allow, indent, cfg);
    DoubleGrows(q', v, i + 1, true, allow, indent, cfg);
    FoldRead(t, false, p, indent, v[..i]);
    assert v[..i] + " " == v[..i + 1];
    if v[i + 1] == ' ' {
      var u := Put(q', ' ');
      assert u == DoubleStep(q', v, i + 1, true, allow, indent, cfg);
      assert DoubleBody(q', v, i + 1, true, allow, indent, cfg)
          == DoubleBody(u, v, i + 2, true, allow, indent, cfg);
      DoubleGrows(u, v, i + 2, true, allow, indent, cfg);
      assert u.out == q.out + "\\ ";
      FoldedSpaceRead(t, q, v[..i]);
      assert v[..i + 1] + " " == v[..i + 2];
      DoubleChars(t, u, v, i + 2, true, allow, indent, cfg);
    } else {
      DoubleNext(t, q, v, i + 1, true, allow, indent, cfg);
      JoinStep(t, false, MarkOf(q), v[..i], "", "\n", "", true);
      DoubleChars(t, q, v, i + 1, true, allow, indent, cfg);
    }
  }

  lemma DoubleColumn(p: Pen, v: string, i: nat, spaces: bool, allow: bool, indent: int, cfg: Config)
    requires i <= |v| && p.column >= 1 && indent >= 1
    ensures DoubleBody(p, v, i, spaces, allow, indent, cfg).column >= 1
    decreases |v| - i
  {
    if i < |v| {
      DoubleColumn(DoubleStep(p, v, i, spaces, allow, indent, cfg),
                   v, i + 1, PlainSpace(v, i, cfg), allow, indent, cfg);
    }
  }

  lemma DoubleQuotedReadBack(t: string, p: Pen, v: string, allow: bool, indent: int, cfg: Config)
    requires indent >= 1 && WriteDouble(p, v, allow, indent, cfg).out <= t
    ensures ScanFlow(t, false, MarkOf(ScalarAt(p)))
         == FlowOk(v, MarkOf(WriteDouble(p, v, allow, indent, cfg)))
    ensures Ch(t, |ScalarAt(p).out|) == '"'
  {
    var q := WriteIndicator(p, "\"", true, false, false);
    var r := DoubleBody(q, v, 0, false, allow, indent, cfg);
    DoubleGrows(q, v, 0, false, allow, indent, cfg);
    assert q.out == ScalarAt(p).out + "\"";
    ReadsAfter(t, ScalarAt(p).out, "\"");
    ReadsFirst(t, |ScalarAt(p).out|, "\"");
    assert v[..0] == "";
    DoubleChars(t, q, v, 0, false, allow, indent, cfg);
  }
}
