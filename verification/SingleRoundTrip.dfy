/**
 Scanning what the single-quoted writer wrote gives the value back whenever the analysis
 allows that style: quotes are doubled, the first LF of a run is doubled, LS and PS stay,
 and spaces fold at any width.
 */
module SingleRoundTrip {
  import opened Chars
  import opened Pens
  import opened Analysis
  import opened ScalarWriters
  import opened ScalarScan
  import opened FlowSteps

  lemma {:induction false} SingleGrows(p: Pen, v: string, i: nat, spaces: bool, breaks: bool,
                                       allow: bool, indent: int, cfg: Config)
    requires i <= |v|
    ensures p.out <= SingleBody(p, v, i, spaces, breaks, allow, indent, cfg).out
    ensures p.line <= SingleBody(p, v, i, spaces, breaks, allow, indent, cfg).line
    decreases |v| - i
  {
    if i < |v| {
      var folds := FoldsSingle(p, v, i, allow, spaces, cfg);
      SingleGrows(LineStep(p, v[i], folds, breaks, true, indent), v, i + 1,
                  SpacesAfter(v[i], spaces), BreaksAfter(v[i], breaks), allow, indent, cfg);
    }
  }

  /** The text goes on with the rest of the body and a closing quote that is not doubled. */
  ghost predicate SingleAhead(t: string, p: Pen, v: string, i: nat, spaces: bool, breaks: bool,
                              allow: bool, indent: int, cfg: Config)
    requires i <= |v|
  {
    var r := SingleBody(p, v, i, spaces, breaks, allow, indent, cfg);
    r.out + "'" <= t && Ch(t, |r.out| + 1) != '\''
  }

  ghost function SingleEnd(p: Pen, v: string, i: nat, spaces: bool, breaks: bool,
                           allow: bool, indent: int, cfg: Config): FlowResult
    requires i <= |v|
  {
    FlowOk(v, Skip(MarkOf(SingleBody(p, v, i, spaces, breaks, allow, indent, cfg))))
  }

  /** One turn of the writer, with what it leaves in the text. */
  lemma SingleTurn(t: string, p: Pen, v: string, i: nat, spaces: bool, breaks: bool,
                   allow: bool, indent: int, cfg: Config)
    returns (q: Pen)
    requires i < |v| && SingleAhead(t, p, v, i, spaces, breaks, allow, indent, cfg)
    ensures q == LineStep(p, v[i], FoldsSingle(p, v, i, allow, spaces, cfg), breaks, true, indent)
    ensures var s, b := SpacesAfter(v[i], spaces), BreaksAfter(v[i], breaks);
      && SingleAhead(t, q, v, i + 1, s, b, allow, indent, cfg)
      && SingleEnd(q, v, i + 1, s, b, allow, indent, cfg)
      == SingleEnd(p, v, i, spaces, breaks, allow, indent, cfg)
    ensures q.out <= t
  {
    q := LineStep(p, v[i], FoldsSingle(p, v, i, allow, spaces, cfg), breaks, true, indent);
    SingleGrows(q, v, i + 1, SpacesAfter(v[i], spaces), BreaksAfter(v[i], breaks), allow, indent, cfg);
  }

  function Doubled(c: char): string {
    if c == '\'' then "''" else [c]
  }

  lemma DoubledRead(t: string, m: Mark, s: string, c: char)
    requires Reads(t, m.index, Doubled(c)) && !IsBlankz(c)
    ensures FlowChars(t, true, m, s) == FlowChars(t, true, Advance(m, |Doubled(c)|), s + [c])
    ensures Ch(t, m.index) == c
  {
    ReadsFirst(t, m.index, Doubled(c));
    assert Skip(Skip(m)) == Advance(m, 2);
    assert s + "'" == s + ['\''];
  }

  /** Not inside a run of breaks; after a character a fold is sure to break the line. */
  ghost predicate OnLine(p: Pen, spaces: bool, indent: int) {
    p.column >= 1 && indent >= 1 && (!spaces ==> !p.indention)
  }

  lemma OrdinaryRead(t: string, p: Pen, q: Pen, c: char, indent: int, s: string)
    requires q.out <= t && !IsBlankz(c) && p.column >= 1 && indent >= 1
    requires q == LineStep(p, c, false, false, true, indent)
    ensures FlowChars(t, true, MarkOf(p), s) == FlowChars(t, true, MarkOf(q), s + [c])
    ensures OnLine(q, false, indent) && Ch(t, |p.out|) == c
  {
    assert q.out == p.out + Doubled(c);
    ReadsAfter(t, p.out, Doubled(c));
    DoubledRead(t, MarkOf(p), s, c);
    assert MarkOf(q) == Advance(MarkOf(p), |Doubled(c)|);
  }

  lemma ClosingRead(t: string, r: Pen, v: string)
    requires r.out + "'" <= t && Ch(t, |r.out| + 1) != '\''
    ensures FlowChars(t, true, MarkOf(r), v) == FlowOk(v, Skip(MarkOf(r)))
    ensures Ch(t, |r.out|) == '\''
  {
    ReadsAfter(t, r.out, "'");
    ReadsFirst(t, |r.out|, "'");
  }

  lemma {:induction false} SingleChars(t: string, p: Pen, v: string, i: nat, spaces: bool,
                                       allow: bool, indent: int, cfg: Config)
    requires i <= |v| && OnLine(p, spaces, indent) && SingleQuotedAllowed(v, cfg)
    requires SingleAhead(t, p, v, i, spaces, false, allow, indent, cfg)
    ensures FlowChars(t, true, MarkOf(p), v[..i])
         == SingleEnd(p, v, i, spaces, false, allow, indent, cfg)
    decreases |v| - i, 1
  {
    if i == |v| {
      assert v[..i] == v;
      ClosingRead(t, p, v);
    } else if v[i] == ' ' {
      SingleSpace(t, p, v, i, spaces, allow, indent, cfg);
    } else if IsBreak(v[i]) {
      SingleFirstBreak(t, p, v, i, spaces, allow, indent, cfg);
    } else {
      var q := SingleTurn(t, p, v, i, spaces, false, allow, indent, cfg);
      assert SingleFits(v, i, cfg);
      OrdinaryRead(t, p, q, v[i], indent, v[..i]);
      assert v[..i] + [v[i]] == v[..i + 1];
      SingleChars(t, q, v, i + 1, false, allow, indent, cfg);
    }
  }

  /** A character other than a space ends a run of blanks. */
  lemma SingleNext(t: string, p: Pen, v: string, i: nat, spaces: bool,
                   allow: bool, indent: int, cfg: Config)
    requires i <= |v| && OnLine(p, spaces, indent) && SingleQuotedAllowed(v, cfg)
    requires i < |v| ==> v[i] != ' ' && !IsBreak(v[i])
    requires SingleAhead(t, p, v, i, spaces, false, allow, indent, cfg)
    ensures !IsBlankz(Ch(t, |p.out|))
  {
    if i == |v| {
      ClosingRead(t, p, v);
    } else {
      var q := SingleTurn(t, p, v, i, spaces, false, allow, indent, cfg);
      assert SingleFits(v, i, cfg);
      OrdinaryRead(t, p, q, v[i], indent, "");
    }
  }

  lemma {:induction false} SingleSpace(t: string, p: Pen, v: string, i: nat, spaces: bool,
                                       allow: bool, indent: int, cfg: Config)
    requires i < |v| && OnLine(p, spaces, indent) && SingleQuotedAllowed(v, cfg) && v[i] == ' '
    requires SingleAhead(t, p, v, i, spaces, false, allow, indent, cfg)
    ensures FlowChars(t, true, MarkOf(p), v[..i])
         == SingleEnd(p, v, i, spaces, false, allow, indent, cfg)
    decreases |v| - i, 0
  {
    var m := MarkOf(p);
    var q := SingleTurn(t, p, v, i, spaces, false, allow, indent, cfg);
    assert SingleFits(v, i, cfg);
    if FoldsSingle(p, v, i, allow, spaces, cfg) {
      FoldRead(t, true, p, indent, v[..i]);
      SingleNext(t, q, v, i + 1, true, allow, indent, cfg);
      JoinStep(t, true, MarkOf(q), v[..i], "", "\n", "", true);
      assert v[..i] + " " == v[..i + 1];
      SingleChars(t, q, v, i + 1, true, allow, indent, cfg);
    } else {
      assert q.out == p.out + " ";
      ReadsAfter(t, p.out, " ");
      ReadsFirst(t, |p.out|, " ");
      BlankStep(t, true, m, v[..i], "");
      assert v[i..i + 1] == " ";
      SingleBlanks(t, q, v, i, i + 1, allow, indent, cfg);
    }
  }

  /** After the blanks v[j..i] were written and read. */
  lemma {:induction false} SingleBlanks(t: string, p: Pen, v: string, j: nat, i: nat,
                                        allow: bool, indent: int, cfg: Config)
    requires j < i <= |v| && OnLine(p, true, indent) && SingleQuotedAllowed(v, cfg)
    requires v[i - 1] == ' '
    requires SingleAhead(t, p, v, i, true, false, allow, indent, cfg)
    ensures FlowBlanks(t, true, MarkOf(p), v[..j], v[j..i], "", "", false)
         == SingleEnd(p, v, i, true, false, allow, indent, cfg)
    decreases |v| - i, 2
  {
    var m := MarkOf(p);
    assert SingleFits(v, i - 1, cfg);
    if i < |v| && v[i] == ' ' {
      var q := SingleTurn(t, p, v, i, true, false, allow, indent, cfg);
      assert q.out == p.out + " ";
      ReadsAfter(t, p.out, " ");
      ReadsFirst(t, |p.out|, " ");
      assert SpacesAfter(v[i], true) == true && BreaksAfter(v[i], false) == false;
      BlankStep(t, true, m, v[..j], v[j..i]);
      assert v[j..i] + " " == v[j..i + 1];
      SingleBlanks(t, q, v, j, i + 1, allow, indent, cfg);
    } else {
      SingleNext(t, p, v, i, true, allow, indent, cfg);
      JoinStep(t, true, m, v[..j], v[j..i], "", "", false);
      assert v[..j] + v[j..i] == v[..i];
      SingleChars(t, p, v, i, true, allow, indent, cfg);
    }
  }

  /** The scanner has read the breaks v[k..i], the first of them into `lead`. */
  ghost predicate BreakRun(v: string, k: nat, i: nat, lead: string, trail: string)
    requires k < i <= |v|
  {
    if v[k] == '\n' then lead == "\n" && trail == v[k..i]
    else lead == [v[k]] && trail == v[k + 1..i]
  }

  lemma BreakRead(t: string, m: Mark, s: string, lead: string, trail: string, c: char)
    requires Ch(t, m.index) == c && IsBreak(c) && c != '\r' && c != NEL
    ensures SkipLine(t, m) == Mark(m.index + 1, m.line + 1, 0)
    ensures FlowBlanks(t, true, m, s, "", lead, trail, true)
         == FlowBlanks(t, true, SkipLine(t, m), s, "", lead, trail + [c], true)
    ensures FlowChars(t, true, m, s) == FlowBlanks(t, true, SkipLine(t, m), s, "", [c], "", true)
  {
    assert BreakText(c) == [c];
    var e := "" + [c];
    assert e == [c];
  }

  lemma FirstBreakText(t: string, p: Pen, q: Pen, c: char, indent: int)
    requires q.out <= t && IsBreak(c) && c != '\r' && c != NEL
    requires q == LineStep(p, c, false, false, true, indent)
    ensures q.column == 0 && q.indention
    ensures Ch(t, |p.out|) == c
    ensures c == '\n' ==> Ch(t, |p.out| + 1) == c && MarkOf(q) == Mark(|p.out| + 2, p.line + 2, 0)
    ensures c != '\n' ==> MarkOf(q) == Mark(|p.out| + 1, p.line + 1, 0)
  {
    var w := if c == '\n' then "\n\n" else [c];
    assert q.out == p.out + w;
    ReadsAfter(t, p.out, w);
    ReadsFirst(t, |p.out|, w);
  }

  /** The first break of a run: LF is written, and read, twice. */
  lemma FirstBreakRead(t: string, p: Pen, q: Pen, c: char, indent: int, s: string)
    requires q.out <= t && IsBreak(c) && c != '\r' && c != NEL
    requires q == LineStep(p, c, false, false, true, indent)
    ensures FlowChars(t, true, MarkOf(p), s)
         == FlowBlanks(t, true, MarkOf(q), s, "", [c], if c == '\n' then "\n" else "", true)
    ensures q.column == 0 && q.indention
  {
    hide FlowChars, FlowBlanks, LineStep, IsBreak, SkipLine;
    FirstBreakText(t, p, q, c, indent);
    BreakRead(t, MarkOf(p), s, "", "", c);
    if c == '\n' {
      BreakRead(t, SkipLine(t, MarkOf(p)), s, "\n", "", '\n');
      var e := "" + ['\n'];
      assert e == "\n";
    }
  }

  lemma {:induction false} SingleFirstBreak(t: string, p: Pen, v: string, i: nat, spaces: bool,
                                            allow: bool, indent: int, cfg: Config)
    requires i < |v| && OnLine(p, spaces, indent) && SingleQuotedAllowed(v, cfg) && IsBreak(v[i])
    requires SingleAhead(t, p, v, i, spaces, false, allow, indent, cfg)
    ensures FlowChars(t, true, MarkOf(p), v[..i])
         == SingleEnd(p, v, i, spaces, false, allow, indent, cfg)
    decreases |v| - i, 0
  {
    var q := SingleTurn(t, p, v, i, spaces, false, allow, indent, cfg);
    assert SingleFits(v, i, cfg);
    FirstBreakRead(t, p, q, v[i], indent, v[..i]);
    var trail := if v[i] == '\n' then "\n" else "";
    assert BreakRun(v, i, i + 1, [v[i]], trail);
    SingleBreaks(t, q, v, i, i + 1, [v[i]], trail, spaces, allow, indent, cfg);
  }

  /** A later break of a run. */
  lemma NextBreakRead(t: string, p: Pen, q: Pen, c: char, indent: int,
                      s: string, lead: string, trail: string)
    requires q.out <= t && IsBreak(c) && c != '\r' && c != NEL
    requires q == LineStep(p, c, false, true, true, indent)
    ensures FlowBlanks(t, true, MarkOf(p), s, "", lead, trail, true)
         == FlowBlanks(t, true, MarkOf(q), s, "", lead, trail + [c], true)
    ensures q.column == 0 && q.indention
  {
    assert q.out == p.out + [c];
    ReadsAfter(t, p.out, [c]);
    ReadsFirst(t, |p.out|, [c]);
    BreakRead(t, MarkOf(p), s, lead, trail, c);
  }

  /** The first character after a run of breaks is indented. */
  lemma ResumeRead(t: string, p: Pen, q: Pen, c: char, indent: int,
                   s: string, lead: string, trail: string)
    requires q.out <= t && !IsBlankz(c) && p.column == 0 && p.indention && indent >= 1
    requires q == LineStep(p, c, false, true, true, indent)
    ensures FlowBlanks(t, true, MarkOf(p), s, "", lead, trail, true)
         == FlowChars(t, true, MarkOf(q), s + Join("", lead, trail, true) + [c])
    ensures OnLine(q, false, indent)
  {
    var u := WriteIndent(p, indent);
    assert u.out == p.out + Spaces(indent);
    assert q.out == u.out + Doubled(c);
    ReadsAfter(t, p.out, Spaces(indent));
    SpacesSkipped(t, true, MarkOf(p), indent, s, "", lead, trail);
    assert MarkOf(u) == Advance(MarkOf(p), indent);
    ReadsAfter(t, u.out, Doubled(c));
    DoubledRead(t, MarkOf(u), s + Join("", lead, trail, true), c);
    JoinStep(t, true, MarkOf(u), s, "", lead, trail, true);
    assert MarkOf(q) == Advance(MarkOf(u), |Doubled(c)|);
  }

  lemma RunText(v: string, k: nat, i: nat, lead: string, trail: string)
    requires k < i <= |v| && BreakRun(v, k, i, lead, trail)
    ensures v[..k] + Join("", lead, trail, true) == v[..i]
    ensures i < |v| ==> BreakRun(v, k, i + 1, lead, trail + [v[i]])
  {
    assert [v[k]] + v[k + 1..i] == v[k..i];
    assert v[..k] + v[k..i] == v[..i];
    if i < |v| {
      assert v[k..i] + [v[i]] == v[k..i + 1];
      assert v[k + 1..i] + [v[i]] == v[k + 1..i + 1];
    }
  }

  /** A value that ends in breaks has its closing quote in column 0. */
  lemma RunEndRead(t: string, p: Pen, s: string, lead: string, trail: string)
    requires p.out + "'" <= t && Ch(t, |p.out| + 1) != '\''
    ensures FlowBlanks(t, true, MarkOf(p), s, "", lead, trail, true)
         == FlowOk(s + Join("", lead, trail, true), Skip(MarkOf(p)))
  {
    ClosingRead(t, p, s + Join("", lead, trail, true));
    JoinStep(t, true, MarkOf(p), s, "", lead, trail, true);
  }

  lemma RunEndsValue(t: string, p: Pen, v: string, k: nat, lead: string, trail: string, spaces: bool,
                     allow: bool, indent: int, cfg: Config)
    requires k < |v| && v[..k] + Join("", lead, trail, true) == v
    requires SingleAhead(t, p, v, |v|, spaces, true, allow, indent, cfg)
    ensures FlowBlanks(t, true, MarkOf(p), v[..k], "", lead, trail, true)
         == SingleEnd(p, v, |v|, spaces, true, allow, indent, cfg)
  {
    hide FlowBlanks, Join;
    RunEndRead(t, p, v[..k], lead, trail);
  }

  lemma {:induction false} SingleBreaks(t: string, p: Pen, v: string, k: nat, i: nat,
                                        lead: string, trail: string, spaces: bool,
                                        allow: bool, indent: int, cfg: Config)
    requires k < i <= |v| && SingleQuotedAllowed(v, cfg)
    requires BreakRun(v, k, i, lead, trail) && IsBreak(v[i - 1])
    requires p.column == 0 && p.indention && indent >= 1
    requires SingleAhead(t, p, v, i, spaces, true, allow, indent, cfg)
    ensures FlowBlanks(t, true, MarkOf(p), v[..k], "", lead, trail, true)
         == SingleEnd(p, v, i, spaces, true, allow, indent, cfg)
    decreases |v| - i, 2
  {
    hide FlowBlanks, Join, Reads;
    RunText(v, k, i, lead, trail);
    if i == |v| {
      RunEndsValue(t, p, v, k, lead, trail, spaces, allow, indent, cfg);
    } else {
      var q := SingleTurn(t, p, v, i, spaces, true, allow, indent, cfg);
      assert SingleFits(v, i, cfg);
      if IsBreak(v[i]) {
        assert SpacesAfter(v[i], spaces) == spaces && BreaksAfter(v[i], true) == true;
        NextBreakRead(t, p, q, v[i], indent, v[..k], lead, trail);
        SingleBreaks(t, q, v, k, i + 1, lead, trail + [v[i]], spaces, allow, indent, cfg);
      } else {
        SingleResume(t, p, q, v, k, i, lead, trail, spaces, allow, indent, cfg);
      }
    }
  }

  lemma {:induction false} SingleResume(t: string, p: Pen, q: Pen, v: string, k: nat, i: nat,
                                        lead: string, trail: string, spaces: bool,
                                        allow: bool, indent: int, cfg: Config)
    requires k < i < |v| && SingleQuotedAllowed(v, cfg) && IsBreak(v[i - 1]) && !IsBreak(v[i])
    requires v[..k] + Join("", lead, trail, true) == v[..i]
    requires p.column == 0 && p.indention && indent >= 1
    requires q == LineStep(p, v[i], FoldsSingle(p, v, i, allow, spaces, cfg), true, true, indent)
    requires q.out <= t
    requires SingleAhead(t, q, v, i + 1, SpacesAfter(v[i], spaces), BreaksAfter(v[i], true), allow, indent, cfg)
    ensures FlowBlanks(t, true, MarkOf(p), v[..k], "", lead, trail, true)
         == SingleEnd(q, v, i + 1, SpacesAfter(v[i], spaces), BreaksAfter(v[i], true), allow, indent, cfg)
    decreases |v| - i, 1
  {
    assert SingleFits(v, i - 1, cfg) && SingleFits(v, i, cfg);
    assert SpacesAfter(v[i], spaces) == BreaksAfter(v[i], true) == false;
    ResumeRead(t, p, q, v[i], indent, v[..k], lead, trail);
    assert v[..i] + [v[i]] == v[..i + 1];
    SingleChars(t, q, v, i + 1, false, allow, indent, cfg);
  }

  lemma SingleQuotedReadBack(t: string, p: Pen, v: string, allow: bool, indent: int, cfg: Config)
    requires indent >= 1 && SingleQuotedAllowed(v, cfg)
    requires WriteSingle(p, v, allow, indent, cfg).out <= t
    requires Ch(t, |WriteSingle(p, v, allow, indent, cfg).out|) != '\''
    ensures ScanFlow(t, true, MarkOf(ScalarAt(p)))
         == FlowOk(v, MarkOf(WriteSingle(p, v, allow, indent, cfg)))
    ensures Ch(t, |ScalarAt(p).out|) == '\''
  {
    hide SingleBody, FlowBlanks;
    var q := WriteIndicator(p, "'", true, false, false);
    SingleGrows(q, v, 0, false, false, allow, indent, cfg);
    assert q.out == ScalarAt(p).out + "'";
    ReadsAfter(t, ScalarAt(p).out, "'");
    ReadsFirst(t, |ScalarAt(p).out|, "'");
    assert v[..0] == "";
    var r := SingleBody(q, v, 0, false, false, allow, indent, cfg);
    assert WriteSingle(p, v, allow, indent, cfg).out == r.out + "'";
    SingleChars(t, q, v, 0, false, allow, indent, cfg);
    SingleStart(t, q, v, allow, indent, cfg);
  }

  /** The text after the opening quote does not end the stream. */
  lemma SingleStart(t: string, q: Pen, v: string, allow: bool, indent: int, cfg: Config)
    requires OnLine(q, false, indent) && SingleQuotedAllowed(v, cfg)
    requires SingleAhead(t, q, v, 0, false, false, allow, indent, cfg)
    ensures Ch(t, |q.out|) != NUL
  {
    if v == "" || (v[0] != ' ' && !IsBreak(v[0])) {
      SingleNext(t, q, v, 0, false, allow, indent, cfg);
    } else {
      var u := SingleTurn(t, q, v, 0, false, false, allow, indent, cfg);
      assert SingleFits(v, 0, cfg);
      var w := if v[0] == '\n' then "\n\n" else [v[0]];
      assert u.out == q.out + w;
      ReadsAfter(t, q.out, w);
      ReadsFirst(t, |q.out|, w);
    }
  }
}
