/** Single steps of the quoted scalar scanner, as the read-back proofs take them. */
module FlowSteps {
  import opened Chars
  import opened Pens
  import opened ScalarScan

  /** An ordinary character is taken as it is. */
  lemma CharStep(t: string, single: bool, m: Mark, s: string)
    requires !IsBlankz(Ch(t, m.index)) && Ch(t, m.index) != (if single then '\'' else '"')
    requires single || Ch(t, m.index) != '\\'
    ensures FlowChars(t, single, m, s) == FlowChars(t, single, Skip(m), s + [Ch(t, m.index)])
  {
  }

  /** The first blank after other characters, and each one after it. */
  lemma BlankStep(t: string, single: bool, m: Mark, s: string, ws: string)
    requires Ch(t, m.index) == ' '
    ensures FlowChars(t, single, m, s) == FlowBlanks(t, single, Skip(m), s, " ", "", "", false)
    ensures FlowBlanks(t, single, m, s, ws, "", "", false)
         == FlowBlanks(t, single, Skip(m), s, ws + " ", "", "", false)
  {
    var w := "" + [' '];
    assert w == " ";
  }

  /** A run of blanks and breaks ends before other text that is no document indicator. */
  lemma JoinStep(t: string, single: bool, m: Mark, s: string,
                 ws: string, lead: string, trail: string, leading: bool)
    requires !IsBlankz(Ch(t, m.index)) && !DocIndicatorAt(t, m)
    ensures FlowBlanks(t, single, m, s, ws, lead, trail, leading)
         == FlowChars(t, single, m, s + Join(ws, lead, trail, leading))
  {
  }

  lemma {:induction false} SpacesSkipped(t: string, single: bool, m: Mark, n: nat, s: string,
                                         ws: string, lead: string, trail: string)
    requires Reads(t, m.index, Spaces(n))
    ensures FlowBlanks(t, single, m, s, ws, lead, trail, true)
         == FlowBlanks(t, single, Advance(m, n), s, ws, lead, trail, true)
    decreases n
  {
    if n == 0 {
      assert Advance(m, 0) == m;
    } else {
      ReadsFirst(t, m.index, Spaces(n));
      assert Spaces(n)[1..] == Spaces(n - 1);
      SpacesSkipped(t, single, Skip(m), n - 1, s, ws, lead, trail);
      assert Advance(Skip(m), n - 1) == Advance(m, n);
    }
  }

  /** The text of a fold: a line break and the indentation. */
  lemma FoldText(t: string, p: Pen, indent: int)
    requires BreaksLine(p, Margin(indent)) && WriteIndent(p, indent).out <= t
    ensures Ch(t, |p.out|) == '\n' && Reads(t, |p.out| + 1, Spaces(Margin(indent)))
    ensures MarkOf(WriteIndent(p, indent)) == Advance(SkipLine(t, MarkOf(p)), Margin(indent))
  {
    var n := Margin(indent);
    assert WriteIndent(p, indent).out == p.out + ("\n" + Spaces(n));
    ReadsAfter(t, p.out, "\n" + Spaces(n));
    ReadsPart(t, |p.out|, "\n", Spaces(n));
    ReadsFirst(t, |p.out|, "\n");
  }

  /** A fold is read as the first break of a run. */
  lemma FoldRead(t: string, single: bool, p: Pen, indent: int, s: string)
    requires BreaksLine(p, Margin(indent)) && WriteIndent(p, indent).out <= t
    ensures FlowChars(t, single, MarkOf(p), s)
         == FlowBlanks(t, single, MarkOf(WriteIndent(p, indent)), s, "", "\n", "", true)
  {
    FoldText(t, p, indent);
    FirstBreakStep(t, single, MarkOf(p), s);
    SpacesSkipped(t, single, SkipLine(t, MarkOf(p)), Margin(indent), s, "", "\n", "");
  }

  lemma FirstBreakStep(t: string, single: bool, m: Mark, s: string)
    requires Ch(t, m.index) == '\n'
    ensures FlowChars(t, single, m, s)
         == FlowBlanks(t, single, SkipLine(t, m), s, "", "\n", "", true)
  {
    var b := "" + BreakText('\n');
    assert b == "\n";
  }
}
