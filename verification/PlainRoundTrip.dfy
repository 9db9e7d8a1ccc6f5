/**
 Scanning what the plain writer wrote gives the value back, and stops right there, whenever
 the analysis allows the style in a block and the text goes on as block text does: with the
 ':' of a simple key, with a line that is not indented as deeply, or with the end.
 */
module PlainRoundTrip {
  import opened Chars
  import opened Pens
  import opened Analysis
  import opened ScalarWriters
  import opened ScalarScan

  lemma {:induction false} PlainGrows(p: Pen, v: string, i: nat, spaces: bool, breaks: bool,
                                      allow: bool, indent: int, cfg: Config)
    requires i <= |v|
    ensures p.out <= PlainBody(p, v, i, spaces, breaks, allow, indent, cfg).out
    ensures p.line <= PlainBody(p, v, i, spaces, breaks, allow, indent, cfg).line
    decreases |v| - i
  {
    if i < |v| {
      var folds := FoldsPlain(p, v, i, allow, spaces, cfg);
      PlainGrows(LineStep(p, v[i], folds, breaks, false, indent), v, i + 1,
                 SpacesAfter(v[i], spaces), BreaksAfter(v[i], breaks), allow, indent, cfg);
    }
  }

  /**
   How the text goes on after a plain scalar that ends at m in a block indented by `parent`:
   the scanner stops at `next`, having crossed a line break or not. The next line starts
   with n spaces.
   */
  ghost predicate StopsAt(t: string, m: Mark, parent: int, n: nat, next: Mark, leading: bool) {
    if leading then
      && Ch(t, m.index) == '\n'
      && Reads(t, m.index + 1, Spaces(n))
      && next == Advance(SkipLine(t, m), n)
      && !BlankOrBreak(Ch(t, next.index))
      && (n <= parent || DocIndicatorAt(t, next) || Ch(t, next.index) == NUL)
    else
      next == m && (Ch(t, m.index) == NUL || EndsPlain(t, 0, m.index))
  }

  // ---------- steps of the scanner ----------

  lemma {:induction false} SpacesPassed(t: string, ind: int, m: Mark, n: nat, s: string, end: Mark,
                                        lead: string, trail: string)
    requires Reads(t, m.index, Spaces(n))
    ensures PlainBlanks(t, 0, ind, m, s, end, "", lead, trail, true)
         == PlainBlanks(t, 0, ind, Advance(m, n), s, end, "", lead, trail, true)
    decreases n
  {
    if n == 0 {
      assert Advance(m, 0) == m;
    } else {
      ReadsFirst(t, m.index, Spaces(n));
      assert Spaces(n)[1..] == Spaces(n - 1);
      SpacesPassed(t, ind, Skip(m), n - 1, s, end, lead, trail);
      assert Advance(Skip(m), n - 1) == Advance(m, n);
    }
  }

  /** A line break and n spaces. */
  lemma LineRead(t: string, ind: int, m: Mark, n: nat, s: string, end: Mark)
    requires Ch(t, m.index) == '\n' && Reads(t, m.index + 1, Spaces(n))
    ensures PlainChars(t, 0, ind, m, s, end, "", "", "", false)
         == PlainBlanks(t, 0, ind, Advance(SkipLine(t, m), n), s, end, "", "\n", "", true)
  {
    FirstBreak(t, ind, m, s, end);
    SpacesPassed(t, ind, SkipLine(t, m), n, s, end, "\n", "");
  }

  lemma FirstBreak(t: string, ind: int, m: Mark, s: string, end: Mark)
    requires Ch(t, m.index) == '\n'
    ensures PlainChars(t, 0, ind, m, s, end, "", "", "", false)
         == PlainBlanks(t, 0, ind, SkipLine(t, m), s, end, "", "\n", "", true)
  {
    var b := "" + BreakText('\n');
    assert b == "\n";
  }

  lemma StopRead(t: string, m: Mark, parent: int, v: string, n: nat, next: Mark, leading: bool)
    requires StopsAt(t, m, parent, n, next, leading)
    ensures PlainChars(t, 0, parent + 1, m, v, m, "", "", "", false)
         == PlainOk(v, m, next, leading)
  {
    if leading {
      LineRead(t, parent + 1, m, n, v, m);
      NextLineStops(t, m, parent, v, n, next);
    }
  }

  lemma NextLineStops(t: string, m: Mark, parent: int, v: string, n: nat, next: Mark)
    requires StopsAt(t, m, parent, n, next, true)
    ensures PlainBlanks(t, 0, parent + 1, next, v, m, "", "\n", "", true) == PlainOk(v, m, next, true)
  {
    if n > parent && !DocIndicatorAt(t, next) {
      assert PlainBlanks(t, 0, parent + 1, next, v, m, "", "\n", "", true)
          == PlainTop(t, 0, parent + 1, next, v, m, "", "\n", "", true);
      assert PlainTop(t, 0, parent + 1, next, v, m, "", "\n", "", true)
          == PlainChars(t, 0, parent + 1, next, v, m, "", "\n", "", true);
    }
  }

  /** A run of blanks and breaks ends before text that belongs to the scalar. */
  lemma PendingStep(t: string, ind: int, m: Mark, s: string, end: Mark,
                    ws: string, lead: string, trail: string, leading: bool)
    requires !IsBlankz(Ch(t, m.index)) && Ch(t, m.index) != '#'
    requires m.column >= ind && m.column >= 1
    ensures PlainBlanks(t, 0, ind, m, s, end, ws, lead, trail, leading)
         == PlainChars(t, 0, ind, m, s, end, ws, lead, trail, leading)
  {
  }

  lemma TakeStep(t: string, ind: int, m: Mark, s: string, end: Mark,
                 ws: string, lead: string, trail: string, leading: bool)
    requires !IsBlankz(Ch(t, m.index)) && !EndsPlain(t, 0, m.index)
    ensures PlainChars(t, 0, ind, m, s, end, ws, lead, trail, leading)
         == PlainChars(t, 0, ind, Skip(m), s + Join(ws, lead, trail, leading) + [Ch(t, m.index)],
                       Skip(m), "", "", "", false)
  {
  }

  lemma BlankStep(t: string, ind: int, m: Mark, s: string, end: Mark, ws: string)
    requires Ch(t, m.index) == ' '
    ensures PlainChars(t, 0, ind, m, s, end, "", "", "", false)
         == PlainBlanks(t, 0, ind, Skip(m), s, end, " ", "", "", false)
    ensures PlainBlanks(t, 0, ind, m, s, end, ws, "", "", false)
         == PlainBlanks(t, 0, ind, Skip(m), s, end, ws + " ", "", "", false)
  {
    var w := "" + [' '];
    assert w == " ";
  }

  // ---------- the body ----------

  /** The value, where it is written and what follows it. */
  datatype Job = Job(t: string, v: string, allow: bool, indent: int, cfg: Config,
                     parent: int, n: nat, next: Mark, leading: bool)

  ghost predicate JobOk(j: Job) {
    && j.v != "" && BlockPlainAllowed(j.v, j.cfg)
    && j.indent >= 1 && j.indent > j.parent
  }

  ghost function Rest(p: Pen, j: Job, i: nat, spaces: bool): Pen
    requires i <= |j.v|
  {
    PlainBody(p, j.v, i, spaces, false, j.allow, j.indent, j.cfg)
  }

  ghost predicate Ahead(p: Pen, j: Job, i: nat, spaces: bool)
    requires i <= |j.v|
  {
    var r := Rest(p, j, i, spaces);
    r.out <= j.t && StopsAt(j.t, MarkOf(r), j.parent, j.n, j.next, j.leading)
  }

  ghost function Result(p: Pen, j: Job, i: nat, spaces: bool): PlainResult
    requires i <= |j.v|
  {
    PlainOk(j.v, MarkOf(Rest(p, j, i, spaces)), j.next, j.leading)
  }

  lemma NoBreakInside(j: Job, i: nat)
    requires JobOk(j) && i < |j.v|
    ensures !IsBreak(j.v[i]) && !Special(j.v[i], j.cfg) && j.v[i] != '\t' && j.v[i] != NUL
    ensures j.v[i] == ':' ==> i + 1 < |j.v| && j.v[i + 1] != ' '
    ensures i > 0 && j.v[i] == '#' ==> j.v[i - 1] != ' '
    ensures i == 0 ==> j.v[i] != '#' && j.v[i] != ' '
  {
    assert SingleFits(j.v, i, j.cfg);
    assert !BlockIndicatorAt(j.v, i);
  }

  /** One turn of the writer, with what it leaves to write. */
  lemma Turn(p: Pen, j: Job, i: nat, spaces: bool) returns (q: Pen)
    requires JobOk(j) && i < |j.v| && Ahead(p, j, i, spaces)
    ensures q == LineStep(p, j.v[i], FoldsPlain(p, j.v, i, j.allow, spaces, j.cfg),
                          false, false, j.indent)
    ensures Ahead(q, j, i + 1, j.v[i] == ' ')
    ensures Result(q, j, i + 1, j.v[i] == ' ') == Result(p, j, i, spaces)
    ensures q.out <= j.t
  {
    NoBreakInside(j, i);
    q := LineStep(p, j.v[i], FoldsPlain(p, j.v, i, j.allow, spaces, j.cfg), false, false, j.indent);
    assert SpacesAfter(j.v[i], spaces) == (j.v[i] == ' ') && BreaksAfter(j.v[i], false) == false;
    PlainGrows(q, j.v, i + 1, j.v[i] == ' ', false, j.allow, j.indent, j.cfg);
  }

  /** A character that is no space stands in the text as it is. */
  lemma CharText(p: Pen, j: Job, i: nat, spaces: bool)
    requires JobOk(j) && i < |j.v| && Ahead(p, j, i, spaces) && j.v[i] != ' '
    ensures Ch(j.t, |p.out|) == j.v[i]
  {
    var q := Turn(p, j, i, spaces);
    NoBreakInside(j, i);
    assert q.out == p.out + [j.v[i]];
    ReadsAfter(j.t, p.out, [j.v[i]]);
    ReadsFirst(j.t, |p.out|, [j.v[i]]);
  }

  lemma CharIsTaken(p: Pen, j: Job, i: nat, spaces: bool) returns (q: Pen)
    requires JobOk(j) && i < |j.v| && Ahead(p, j, i, spaces) && j.v[i] != ' '
    ensures q == Put(p, j.v[i]).(indention := false)
    ensures !IsBlankz(j.v[i]) && Ch(j.t, |p.out|) == j.v[i] && !EndsPlain(j.t, 0, |p.out|)
    ensures Ahead(q, j, i + 1, false) && Result(q, j, i + 1, false) == Result(p, j, i, spaces)
  {
    NoBreakInside(j, i);
    CharText(p, j, i, spaces);
    q := Turn(p, j, i, spaces);
    if j.v[i] == ':' {
      CharText(q, j, i + 1, false);
      NoBreakInside(j, i + 1);
    }
  }

  lemma {:induction false} CharRead(p: Pen, j: Job, i: nat, spaces: bool, s: string, end: Mark,
                                    ws: string, lead: string, trail: string, leading: bool)
    requires JobOk(j) && i < |j.v| && Ahead(p, j, i, spaces) && j.v[i] != ' '
    requires p.column >= j.parent
    requires s + Join(ws, lead, trail, leading) == j.v[..i]
    ensures PlainChars(j.t, 0, j.parent + 1, MarkOf(p), s, end, ws, lead, trail, leading)
         == Result(p, j, i, spaces)
    decreases |j.v| - i, 0
  {
    var q := CharIsTaken(p, j, i, spaces);
    TakeStep(j.t, j.parent + 1, MarkOf(p), s, end, ws, lead, trail, leading);
    assert j.v[..i] + [j.v[i]] == j.v[..i + 1];
    AfterChar(q, j, i + 1);
  }

  lemma {:induction false} AfterChar(p: Pen, j: Job, i: nat)
    requires JobOk(j) && 0 < i <= |j.v| && Ahead(p, j, i, false)
    requires p.column > j.parent && p.column >= 1 && !p.indention
    ensures PlainChars(j.t, 0, j.parent + 1, MarkOf(p), j.v[..i], MarkOf(p), "", "", "", false)
         == Result(p, j, i, false)
    decreases |j.v| - i, 1
  {
    var m := MarkOf(p);
    if i == |j.v| {
      assert j.v[..i] == j.v;
      StopRead(j.t, m, j.parent, j.v, j.n, j.next, j.leading);
    } else if j.v[i] != ' ' {
      CharRead(p, j, i, false, j.v[..i], m, "", "", "", false);
    } else if FoldsPlain(p, j.v, i, j.allow, false, j.cfg) {
      FoldIsRead(p, j, i);
    } else {
      var q := Turn(p, j, i, false);
      assert q.out == p.out + " ";
      ReadsAfter(j.t, p.out, " ");
      ReadsFirst(j.t, |p.out|, " ");
      BlankStep(j.t, j.parent + 1, m, j.v[..i], m, "");
      assert j.v[i..i + 1] == " ";
      SpacesRead(q, j, i, i + 1, m);
    }
  }

  /** The value goes on after a space: it does not end in one. */
  lemma GoesOn(j: Job, i: nat)
    requires JobOk(j) && 0 < i <= |j.v| && j.v[i - 1] == ' '
    ensures i < |j.v| && (j.v[i] == '#' ==> false)
  {
    NoBreakInside(j, i - 1);
    if i < |j.v| {
      NoBreakInside(j, i);
    }
  }

  lemma {:induction false} SpacesRead(p: Pen, j: Job, k: nat, i: nat, end: Mark)
    requires JobOk(j) && k < i <= |j.v| && Ahead(p, j, i, true) && j.v[i - 1] == ' '
    requires p.column > j.parent && p.column >= 1
    ensures PlainBlanks(j.t, 0, j.parent + 1, MarkOf(p), j.v[..k], end, j.v[k..i], "", "", false)
         == Result(p, j, i, true)
    decreases |j.v| - i, 2
  {
    var m := MarkOf(p);
    GoesOn(j, i);
    if j.v[i] == ' ' {
      var q := Turn(p, j, i, true);
      assert q.out == p.out + " ";
      ReadsAfter(j.t, p.out, " ");
      ReadsFirst(j.t, |p.out|, " ");
      BlankStep(j.t, j.parent + 1, m, j.v[..k], end, j.v[k..i]);
      assert j.v[k..i] + " " == j.v[k..i + 1];
      SpacesRead(q, j, k, i + 1, end);
    } else {
      CharText(p, j, i, true);
      NoBreakInside(j, i);
      PendingStep(j.t, j.parent + 1, m, j.v[..k], end, j.v[k..i], "", "", false);
      assert j.v[..k] + j.v[k..i] == j.v[..i];
      CharRead(p, j, i, true, j.v[..k], end, j.v[k..i], "", "", false);
    }
  }

  /** A space written as a line break and the indentation. */
  lemma {:induction false} FoldIsRead(p: Pen, j: Job, i: nat)
    requires JobOk(j) && 0 < i < |j.v| && Ahead(p, j, i, false) && j.v[i] == ' '
    requires FoldsPlain(p, j.v, i, j.allow, false, j.cfg)
    requires p.column > j.parent && p.column >= 1 && !p.indention
    ensures PlainChars(j.t, 0, j.parent + 1, MarkOf(p), j.v[..i], MarkOf(p), "", "", "", false)
         == Result(p, j, i, false)
    decreases |j.v| - i, 0
  {
    var q := Turn(p, j, i, false);
    GoesOn(j, i + 1);
    assert q.out == p.out + ("\n" + Spaces(j.indent));
    ReadsAfter(j.t, p.out, "\n" + Spaces(j.indent));
    ReadsPart(j.t, |p.out|, "\n", Spaces(j.indent));
    ReadsFirst(j.t, |p.out|, "\n");
    LineRead(j.t, j.parent + 1, MarkOf(p), j.indent, j.v[..i], MarkOf(p));
    assert Advance(SkipLine(j.t, MarkOf(p)), j.indent) == MarkOf(q);
    CharText(q, j, i + 1, true);
    NoBreakInside(j, i + 1);
    PendingStep(j.t, j.parent + 1, MarkOf(q), j.v[..i], MarkOf(p), "", "\n", "", true);
    assert j.v[..i] + " " == j.v[..i + 1];
    CharRead(q, j, i + 1, true, j.v[..i], MarkOf(p), "", "\n", "", true);
  }

  lemma PlainReadBack(t: string, p: Pen, v: string, root: bool, allow: bool, indent: int,
                      cfg: Config, parent: int, n: nat, next: Mark, leading: bool)
    requires v != "" && BlockPlainAllowed(v, cfg) && indent >= 1 && indent > parent
    requires ScalarAt(p).column >= parent
    requires var r := WritePlain(p, v, root, allow, indent, cfg);
      r.out <= t && StopsAt(t, MarkOf(r), parent, n, next, leading)
    ensures ScanPlain(t, 0, parent, MarkOf(ScalarAt(p)))
         == PlainOk(v, MarkOf(WritePlain(p, v, root, allow, indent, cfg)), next, leading)
    ensures Ch(t, |ScalarAt(p).out|) == v[0]
    ensures |v| > 1 && v[1] != ' ' ==> Ch(t, |ScalarAt(p).out| + 1) == v[1]
    ensures !DocIndicatorAt(t, MarkOf(ScalarAt(p)))
  {
    var j := Job(t, v, allow, indent, cfg, parent, n, next, leading);
    var q := ScalarAt(p);
    assert Ahead(q, j, 0, false);
    NoBreakInside(j, 0);
    CharText(q, j, 0, false);
    NotAnIndicator(q, j);
    assert v[..0] == "";
    var u := Turn(q, j, 0, false);
    SecondChar(u, j);
    CharRead(q, j, 0, false, "", MarkOf(q), "", "", "", false);
  }

  /** No document indicator begins where the value does. */
  lemma NotAnIndicator(p: Pen, j: Job)
    requires JobOk(j) && Ahead(p, j, 0, false)
    ensures !DocIndicatorAt(j.t, MarkOf(p))
  {
    NoBreakInside(j, 0);
    CharText(p, j, 0, false);
    var v := j.v;
    if DocIndicatorAt(j.t, MarkOf(p)) {
      var q := Turn(p, j, 0, false);
      assert q.out == p.out + [v[0]];
      SecondChar(q, j);
      if |v| > 1 && v[1] == v[0] {
        var r := Turn(q, j, 1, false);
        NoBreakInside(j, 1);
        assert r.out == q.out + [v[1]];
        if |v| > 2 && v[2] != ' ' {
          CharText(r, j, 2, false);
        } else if |v| > 2 {
          FoldOrSpace(r, j, 2);
        }
      }
    }
  }

  lemma SecondChar(p: Pen, j: Job)
    requires JobOk(j) && Ahead(p, j, 1, false) && !p.indention
    ensures |j.v| > 1 && j.v[1] != ' ' ==> Ch(j.t, |p.out|) == j.v[1]
    ensures |j.v| > 1 && j.v[1] == ' ' ==> Ch(j.t, |p.out|) == ' ' || Ch(j.t, |p.out|) == '\n'
    ensures |j.v| == 1 ==> Ch(j.t, |p.out|) in [NUL, '\n', ':']
  {
    if |j.v| > 1 {
      if j.v[1] != ' ' {
        CharText(p, j, 1, false);
      } else {
        FoldOrSpace(p, j, 1);
      }
    }
  }

  lemma FoldOrSpace(p: Pen, j: Job, i: nat)
    requires JobOk(j) && i < |j.v| && Ahead(p, j, i, false) && j.v[i] == ' ' && !p.indention
    ensures Ch(j.t, |p.out|) == ' ' || Ch(j.t, |p.out|) == '\n'
  {
    var q := Turn(p, j, i, false);
    NoBreakInside(j, i);
    if FoldsPlain(p, j.v, i, j.allow, false, j.cfg) {
      var w := "\n" + Spaces(j.indent);
      assert q.out == p.out + w;
      ReadsAfter(j.t, p.out, w);
      ReadsFirst(j.t, |p.out|, w);
    } else {
      assert q.out == p.out + " ";
      ReadsAfter(j.t, p.out, " ");
      ReadsFirst(j.t, |p.out|, " ");
    }
  }
}
