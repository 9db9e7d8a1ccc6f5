/** Words are written in the style they need, and filled into lines. */
module PrintedWords {
  import opened Chars
  import opened Pens
  import opened Analysis
  import opened ScalarWriters
  import opened Resolve
  import opened Layout
  import opened PrintedForm

  // ---------- splitting ----------

  lemma {:induction false} SplitJoined(v: string)
    ensures Joined(Split(v)) == v
  {
    if v != "" {
      SplitJoined(v[1..]);
      var rest := Split(v[1..]);
      if v[0] == ' ' {
        assert Split(v) == [""] + rest && Split(v)[1..] == rest;
        assert "" + " " + v[1..] == v;
      } else {
        var words := [[v[0]] + rest[0]] + rest[1..];
        assert words[1..] == rest[1..];
        if |rest| == 1 {
          assert [v[0]] + rest[0] == v;
        } else {
          assert [v[0]] + rest[0] + " " + Joined(rest[1..]) == [v[0]] + (rest[0] + " " + Joined(rest[1..]));
        }
      }
    }
  }

  /** A character of a word, or a space between two words. */
  predicate InText(v: string, i: nat)
    requires i < |v|
  {
    WordChar(v[i]) || (v[i] == ' ' && 0 < i < |v| - 1 && WordChar(v[i - 1]) && WordChar(v[i + 1]))
  }

  /** Where words stand in their text, every character is one of a word or a space between two. */
  lemma {:induction false} JoinedChars(words: seq<string>)
    requires AreWords(words)
    ensures var v := Joined(words);
      && v != "" && v[0] == words[0][0] && WordChar(v[|v| - 1]) && WordChar(v[0])
      && v[|v| - 1] == words[|words| - 1][|words[|words| - 1]| - 1]
      && forall i :: 0 <= i < |v| ==> InText(v, i)
    decreases |words|
  {
    var v := Joined(words);
    var w := words[0];
    assert WordChar(w[|w| - 1]) && WordChar(w[0]);
    if |words| > 1 {
      var rest := words[1..];
      JoinedChars(rest);
      var u := Joined(rest);
      assert v == w + " " + u;
      assert v[|v| - 1] == u[|u| - 1] && rest[|rest| - 1] == words[|words| - 1];
      forall i | 0 <= i < |v|
        ensures InText(v, i)
      {
        if i > |w| {
          var k := i - |w| - 1;
          assert v[i] == u[k] && InText(u, k);
          if u[k] == ' ' {
            assert v[i - 1] == u[k - 1] && v[i + 1] == u[k + 1];
          }
        } else if i == |w| {
          assert v[i - 1] == w[i - 1] && v[i + 1] == u[0];
        }
      }
    }
  }

  lemma WordsFit(v: string, words: seq<string>, cfg: Config)
    requires AreWords(words) && v == Joined(words) && Shown(v, cfg)
    ensures SingleQuotedAllowed(v, cfg) && !HasBreak(v) && !EdgeWhitespace(v)
    ensures !StartsWithBom(v)
  {
    JoinedChars(words);
    forall i | 0 <= i < |v| ensures SingleFits(v, i, cfg) && !IsBreak(v[i]) {
      assert InText(v, i);
      if i + 1 < |v| { assert InText(v, i + 1); }
    }
  }

  // ---------- the style ----------

  /** A character of the text, for the words it may belong to. */
  lemma {:induction false} IndicatorFree(words: seq<string>, i: nat)
    requires AreWords(words) && i < |Joined(words)|
    requires forall k :: 0 <= k < |words| ==> words[k][|words[k]| - 1] != ':'
    requires forall k :: 1 <= k < |words| ==> words[k][0] != '#'
    ensures var v := Joined(words);
      && (v[i] == ':' ==> i + 1 < |v| && v[i + 1] != ' ')
      && (i > 0 && v[i] == '#' ==> v[i - 1] != ' ')
    decreases |words|
  {
    var v, w := Joined(words), words[0];
    if |words| > 1 {
      var rest := words[1..];
      var u := Joined(rest);
      assert v == w + " " + u;
      JoinedChars(rest);
      if i < |w| {
        if i > 0 { assert v[i - 1] == w[i - 1] && WordChar(w[i - 1]); }
        if i + 1 < |w| { assert v[i + 1] == w[i + 1] && WordChar(w[i + 1]); }
      } else if i > |w| {
        var k := i - |w| - 1;
        assert v[i] == u[k];
        assert rest[0] == words[1];
        IndicatorFree(rest, k);
        if k + 1 < |u| { assert v[i + 1] == u[k + 1]; }
        if k > 0 { assert v[i - 1] == u[k - 1]; }
      }
    } else {
      if i > 0 { assert WordChar(w[i - 1]); }
      if i + 1 < |w| { assert WordChar(w[i + 1]); }
    }
  }

  /** And the other way round: a word that ends in a colon, or a later one that begins with '#'. */
  lemma {:induction false} IndicatorFound(words: seq<string>, k: nat) returns (i: nat)
    requires AreWords(words) && k < |words|
    requires words[k][|words[k]| - 1] == ':' || (k > 0 && words[k][0] == '#')
    ensures var v := Joined(words);
      && i < |v|
      && (words[k][|words[k]| - 1] == ':' ==> v[i] == ':' && (i + 1 == |v| || v[i + 1] == ' '))
      && (words[k][|words[k]| - 1] == ':' && |words[k]| > 1 ==> i > 0)
      && (words[k][|words[k]| - 1] == ':' && |words[k]| == 1 && k == 0 ==> i == 0)
      && (words[k][|words[k]| - 1] == ':' && k > 0 ==> i > 0)
      && (words[k][|words[k]| - 1] != ':' ==> i > 0 && v[i] == '#' && v[i - 1] == ' ')
    decreases |words|
  {
    var v, w := Joined(words), words[0];
    if k == 0 {
      i := |w| - 1;
      if |words| > 1 { assert v == w + " " + Joined(words[1..]); }
    } else {
      var rest := words[1..];
      var u := Joined(rest);
      assert v == w + " " + u;
      JoinedChars(rest);
      if k == 1 && words[k][|words[k]| - 1] != ':' {
        i := |w| + 1;
      } else {
        assert rest[k - 1] == words[k];
        var j := IndicatorFound(rest, k - 1);
        i := |w| + 1 + j;
        assert v[i] == u[j];
        if j + 1 < |u| { assert v[i + 1] == u[j + 1]; }
        if j > 0 { assert v[i - 1] == u[j - 1]; }
      }
    }
  }

  lemma FirstIndicator(v: string, words: seq<string>)
    requires AreWords(words) && v == Joined(words)
    ensures v != ""
    ensures BlockIndicatorAt(v, 0) <==>
      words[0][0] in "#,[]{}&*!|>'\"%@`" || (words[0][0] in "?:-" && |words[0]| == 1)
  {
    JoinedChars(words);
    var w := words[0];
    if |words| > 1 { assert v == w + " " + Joined(words[1..]); }
    if |w| > 1 { assert v[1] == w[1] && WordChar(w[1]); }
  }

  lemma Prefixes(v: string, words: seq<string>)
    requires AreWords(words) && v == Joined(words)
    ensures DocumentPrefix(v) <==> |words[0]| >= 3 && (words[0][..3] == "---" || words[0][..3] == "...")
  {
    JoinedChars(words);
    var w := words[0];
    if |words| > 1 { assert v == w + " " + Joined(words[1..]); }
    if |w| >= 3 {
      assert v[0] == w[0] && v[1] == w[1] && v[2] == w[2];
      assert w[..3] == [w[0], w[1], w[2]];
    } else if |v| >= 3 {
      assert v[|w|] == ' ';
    }
  }

  /** The words that may stand plainly are told word by word. */
  lemma PlainIsWordwise(v: string, words: seq<string>, cfg: Config)
    requires AreWords(words) && v == Joined(words) && Shown(v, cfg)
    ensures BlockPlainAllowed(v, cfg) <==> PlainWords(words)
  {
    WordsFit(v, words, cfg);
    FirstIndicator(v, words);
    Prefixes(v, words);
    if PlainWords(words) {
      forall i | 0 <= i < |v| ensures !BlockIndicatorAt(v, i) {
        IndicatorFree(words, i);
        JoinedChars(words);
        if i > 0 { assert InText(v, i - 1); }
        if i + 1 < |v| { assert InText(v, i + 1); }
      }
    } else if k :| 0 <= k < |words| && words[k][|words[k]| - 1] == ':' {
      var i := IndicatorFound(words, k);
      assert BlockIndicatorAt(v, i);
    } else if k :| 1 <= k < |words| && words[k][0] == '#' {
      var i := IndicatorFound(words, k);
      assert BlockIndicatorAt(v, i);
    }
  }

  lemma StyleOfWordy(v: string, words: seq<string>, requested: Style, key: bool, cfg: Config)
    requires AreWords(words) && v == Joined(words) && Shown(v, cfg)
    ensures SelectStyle(requested, v, key, false, cfg) == StyleOfWords(words, requested)
  {
    hide BlockPlainAllowed, FlowPlainAllowed, SingleQuotedAllowed, BlockScalarAllowed, PlainWords;
    WordsFit(v, words, cfg);
    PlainIsWordwise(v, words, cfg);
    JoinedChars(words);
  }

  // ---------- the text ----------

  /** What is fixed while a scalar is written. */
  datatype Job = Job(v: string, style: Style, allow: bool, indent: nat, cfg: Config)

  /** The rest of a scalar's text, in whatever style, from outside a run of breaks. */
  function Rest(j: Job, p: Pen, i: nat, spaces: bool): Pen
    requires i <= |j.v|
  {
    match j.style
    case Plain => PlainBody(p, j.v, i, spaces, false, j.allow, j.indent, j.cfg)
    case SingleQuoted => SingleBody(p, j.v, i, spaces, false, j.allow, j.indent, j.cfg)
    case DoubleQuoted => DoubleBody(p, j.v, i, spaces, j.allow, j.indent, j.cfg)
  }

  /** The pen where a word begins. */
  ghost predicate Before(j: Job, p: Pen) {
    Tracks(p) && (j.style == DoubleQuoted && p.indention ==> p.column >= j.indent)
  }

  /** And behind a character of one. */
  ghost predicate Behind(j: Job, p: Pen) {
    Tracks(p) && (p.indention ==> p.column > j.indent)
  }

  lemma EscapeOfWordChar(c: char)
    requires c == '"' || c == '\\'
    ensures EscapeText(c) == ['\\', c]
  {
    LookupAt(NAMED, 0, if c == '"' then 9 else 10);
  }

  lemma SpelledOne(c: char, style: Style)
    ensures Spelled([c], style) ==
      if style == SingleQuoted && c == '\'' then "''"
      else if style == DoubleQuoted && (c == '"' || c == '\\') then ['\\', c] else [c]
  {
    assert Spelled([c][1..], style) == "";
  }

  lemma CharWritten(j: Job, p: Pen, i: nat, spaces: bool) returns (q: Pen)
    requires i < |j.v| && WordChar(j.v[i]) && !StartsWithBom(j.v) && Shown(j.v, j.cfg)
    requires Behind(j, p) || Before(j, p)
    ensures Rest(j, p, i, spaces) == Rest(j, q, i + 1, false)
    ensures q.out == p.out + Spelled([j.v[i]], j.style) && Behind(j, q)
  {
    hide Column, LinesBefore, EscapeText;
    var c := j.v[i];
    SpelledOne(c, j.style);
    match j.style
    case Plain =>
      q := LineStep(p, c, FoldsPlain(p, j.v, i, j.allow, spaces, j.cfg), false, false, j.indent);
      LineStepTracks(p, c, FoldsPlain(p, j.v, i, j.allow, spaces, j.cfg), false, false, j.indent);
    case SingleQuoted =>
      q := LineStep(p, c, FoldsSingle(p, j.v, i, j.allow, spaces, j.cfg), false, true, j.indent);
      LineStepTracks(p, c, FoldsSingle(p, j.v, i, j.allow, spaces, j.cfg), false, true, j.indent);
    case DoubleQuoted =>
      q := DoubleStep(p, j.v, i, spaces, j.allow, j.indent, j.cfg);
      DoubleStepTracks(p, j.v, i, spaces, j.allow, j.indent, j.cfg);
      if NeedsEscape(j.v, i, j.cfg) { EscapeOfWordChar(c); }
  }

  lemma NothingSpelled(style: Style)
    ensures Spelled("", style) == ""
  {
  }

  lemma SpelledFirst(w: string, style: Style)
    requires w != ""
    ensures Spelled(w, style) == Spelled([w[0]], style) + Spelled(w[1..], style)
  {
    assert [w[0]][1..] == "";
    NothingSpelled(style);
  }

  lemma {:induction false} SpelledSplit(w: string, k: nat, style: Style)
    requires k <= |w|
    ensures Spelled(w, style) == Spelled(w[..k], style) + Spelled(w[k..], style)
    decreases k
  {
    hide Spelled;
    if k == 0 {
      assert w[..0] == "" && w[0..] == w;
      NothingSpelled(style);
    } else {
      SpelledSplit(w[1..], k - 1, style);
      assert w[..k][0] == w[0] && w[..k][1..] == w[1..][..k - 1] && w[k..] == w[1..][k - 1..];
      SpelledFirst(w, style);
      SpelledFirst(w[..k], style);
    }
  }

  lemma {:induction false} WordWritten(j: Job, p: Pen, i: nat, w: string, k: nat, spaces: bool) returns (q: Pen)
    requires i + |w| <= |j.v| && j.v[i..i + |w|] == w && IsWord(w) && !StartsWithBom(j.v) && Shown(j.v, j.cfg)
    requires k < |w| && (Before(j, p) || Behind(j, p))
    ensures Rest(j, p, i + k, spaces) == Rest(j, q, i + |w|, false)
    ensures q.out == p.out + Spelled(w[k..], j.style) && Behind(j, q)
    decreases |w| - k
  {
    hide Rest, Spelled, Before, Behind;
    assert j.v[i + k] == w[k];
    var q1 := CharWritten(j, p, i + k, spaces);
    SpelledSplit(w[k..], 1, j.style);
    assert w[k..][..1] == [w[k]] && w[k..][1..] == w[k + 1..];
    var a, b := Spelled([w[k]], j.style), Spelled(w[k + 1..], j.style);
    assert p.out + (a + b) == p.out + a + b;
    if k + 1 == |w| {
      q := q1;
      assert b == "" by { assert w[k + 1..] == ""; SpelledNothing(j.style); }
    } else {
      q := WordWritten(j, q1, i, w, k + 1, false);
    }
  }

  lemma SpelledNothing(style: Style)
    ensures Spelled("", style) == ""
  {
  }

  /** Between two words: a space, or a new line if the words so far pass the width. */
  lemma SpaceWritten(j: Job, p: Pen, i: nat) returns (q: Pen)
    requires 0 < i < |j.v| - 1 && j.v[i] == ' ' && WordChar(j.v[i + 1]) && !StartsWithBom(j.v)
    requires Behind(j, p)
    ensures Rest(j, p, i, false) == Rest(j, q, i + 1, true) && Before(j, q)
    ensures q.out == p.out + if j.allow && Column(p.out) > j.cfg.bestWidth then NewLine(j.indent) else " "
  {
    hide Column, LinesBefore;
    var folds := j.allow && p.column > j.cfg.bestWidth;
    q := if folds then WriteIndent(p, j.indent) else Put(p, ' ');
    IndentTracks(p, j.indent);
    ColumnOne(p.out, ' ');
    if folds { assert q.out == p.out + "\n" + Spaces(j.indent) == p.out + NewLine(j.indent); }
  }

  /** Where the first of the words stands, and the others. */
  lemma FirstWord(v: string, i: nat, words: seq<string>)
    requires AreWords(words) && i <= |v| && v[i..] == Joined(words)
    ensures var k := i + |words[0]|;
      && k <= |v| && v[i..k] == words[0] && words[0] != ""
      && (|words| == 1 ==> k == |v|)
      && (|words| > 1 ==> 0 < k < |v| - 1 && v[k] == ' ' && v[k + 1..] == Joined(words[1..]) && WordChar(v[k + 1]))
  {
    var w := words[0];
    var k := i + |w|;
    if |words| > 1 {
      var u := Joined(words[1..]);
      JoinedChars(words[1..]);
      assert v[i..] == w + " " + u;
      assert v[i..k] == v[i..][..|w|] == w;
      assert v[k] == v[i..][|w|];
      assert v[k + 1..] == v[i..][|w| + 1..] == u;
      assert v[k + 1] == u[0];
    } else {
      assert v[i..k] == v[i..];
    }
  }

  /** Words from position i on are filled into lines. */
  lemma {:induction false} WordsFilled(j: Job, p: Pen, i: nat, words: seq<string>, spaces: bool) returns (q: Pen)
    requires AreWords(words) && i <= |j.v| && j.v[i..] == Joined(words) && !StartsWithBom(j.v) && Shown(j.v, j.cfg)
    requires Before(j, p)
    ensures Rest(j, p, i, spaces) == q && Behind(j, q)
    ensures q.out == Filled(p.out, words, j.style, j.allow, j.indent, j.cfg.bestWidth)
    decreases |words|
  {
    hide Rest, Before, Behind, Spelled, Column, Joined, IsWord, StartsWithBom, NewLine;
    var w := words[0];
    FirstWord(j.v, i, words);
    assert IsWord(w);
    var q1 := WordWritten(j, p, i, w, 0, spaces);
    assert w[0..] == w;
    if |words| == 1 {
      q := q1;
      RestNothing(j, q);
    } else {
      var q2 := SpaceWritten(j, q1, i + |w|);
      q := WordsFilled(j, q2, i + |w| + 1, words[1..], true);
    }
  }

  lemma RestNothing(j: Job, p: Pen)
    ensures Rest(j, p, |j.v|, false) == p
  {
  }

  /** A scalar of words, with its quotes. */
  lemma WordyWritten(p: Pen, v: string, words: seq<string>, style: Style, root: bool, allow: bool,
                     indent: nat, cfg: Config)
    requires AreWords(words) && v == Joined(words) && Shown(v, cfg) && Tracks(p)
    ensures var start := p.out + if p.whitespace then "" else " ";
      WriteScalar(p, v, style, root, allow, indent, cfg).out
        == Filled(start + Quote(style), words, style, allow, indent, cfg.bestWidth) + Quote(style)
  {
    hide Filled, Joined, Column, LinesBefore, PlainBody, SingleBody, DoubleBody;
    var j := Job(v, style, allow, indent, cfg);
    WordsFit(v, words, cfg);
    assert v[0..] == v && v != "" by { JoinedChars(words); }
    var start := p.out + if p.whitespace then "" else " ";
    ColumnOne(p.out, ' ');
    match style
    case Plain =>
      var q := if p.whitespace then p else Put(p, ' ');
      assert q.out == start + Quote(style);
      var r := WordsFilled(j, q, 0, words, false);
    case SingleQuoted =>
      var q := WriteIndicator(p, "'", true, false, false);
      IndicatorTracks(p, "'", true, false, false);
      assert q.out == start + Quote(style);
      var r := WordsFilled(j, q, 0, words, false);
    case DoubleQuoted =>
      var q := WriteIndicator(p, "\"", true, false, false);
      IndicatorTracks(p, "\"", true, false, false);
      assert q.out == start + Quote(style);
      var r := WordsFilled(j, q, 0, words, false);
  }
}
