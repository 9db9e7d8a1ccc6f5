/**
 The printed form of a JSON document as one would write it down: lines, columns and words, without
 the emitter's states, stacks and flags. What the emitter writes is just this.
 */
module PrintedForm {
  import opened Chars
  import opened Pens
  import opened Analysis
  import opened ScalarWriters
  import opened Resolve
  import opened Tokens
  import opened Layout
  import opened LayoutTokens
  import Unicode

  /** Where the next character of the text comes to stand. */
  function Column(t: string): nat {
    if t == "" || IsBreak(t[|t| - 1]) then 0 else 1 + Column(t[..|t| - 1])
  }

  function LinesBefore(t: string): nat {
    if t == "" then 0 else (if IsBreak(t[|t| - 1]) then 1 else 0) + LinesBefore(t[..|t| - 1])
  }

  function NewLine(n: nat): string {
    "\n" + Spaces(n)
  }

  // ---------- words ----------

  /** Neither a blank nor a break, and printable: the Basic Multilingual Plane only, as the source has it. */
  predicate WordChar(c: char) {
    || '!' <= c <= '~'
    || ('\U{A0}' <= c <= '\U{D7FF}' && c != '\U{2028}' && c != '\U{2029}')
    || ('\U{E000}' <= c <= '\U{FFFD}' && c != '\U{FEFF}')
  }

  /** No character has to be escaped only because it is not ASCII. */
  predicate Shown(v: string, cfg: Config) {
    cfg.unicode || forall i :: 0 <= i < |v| ==> v[i] <= '~'
  }

  predicate IsWord(w: string) {
    w != "" && forall i :: 0 <= i < |w| ==> WordChar(w[i])
  }

  predicate AreWords(words: seq<string>) {
    words != [] && forall i :: 0 <= i < |words| ==> IsWord(words[i])
  }

  /** Words with a space between them. */
  function Joined(words: seq<string>): string
    requires words != []
  {
    if |words| == 1 then words[0] else words[0] + " " + Joined(words[1..])
  }

  /** A word between quotes: in single ones a quote is doubled, in double ones it is escaped. */
  function Spelled(w: string, style: Style): string {
    if w == "" then ""
    else
      (match style
       case Plain => [w[0]]
       case SingleQuoted => if w[0] == '\'' then "''" else [w[0]]
       case DoubleQuoted => if w[0] == '"' || w[0] == '\\' then ['\\', w[0]] else [w[0]]) + Spelled(w[1..], style)
  }

  /** Words are filled into lines: a line ends behind the first word that passes the width. */
  function Filled(t: string, words: seq<string>, style: Style, folds: bool, indent: nat, width: int): string
    requires words != []
    decreases |words|
  {
    var t1 := t + Spelled(words[0], style);
    if |words| == 1 then t1
    else
      Filled(t1 + (if folds && Column(t1) > width then NewLine(indent) else " "), words[1..], style, folds, indent,
             width)
  }

  /** May stand without quotes in a block: it looks like no other token, and holds no ": " and no " #". */
  predicate PlainWords(words: seq<string>)
    requires AreWords(words)
  {
    && words[0][0] !in "#,[]{}&*!|>'\"%@`"
    && (words[0][0] in "?:-" ==> |words[0]| > 1)
    && (|words[0]| >= 3 ==> words[0][..3] != "---" && words[0][..3] != "...")
    && (forall i :: 0 <= i < |words| ==> words[i][|words[i]| - 1] != ':')
    && (forall i :: 1 <= i < |words| ==> words[i][0] != '#')
  }

  function StyleOfWords(words: seq<string>, requested: Style): Style
    requires AreWords(words)
  {
    if requested == Plain && !PlainWords(words) then SingleQuoted else requested
  }

  function Quote(style: Style): string {
    match style
    case Plain => ""
    case SingleQuoted => "'"
    case DoubleQuoted => "\""
  }

  // ---------- the form ----------

  /** The pieces between the spaces. */
  function Split(v: string): (words: seq<string>)
    ensures words != []
  {
    if v == "" then [""]
    else
      var rest := Split(v[1..]);
      if v[0] == ' ' then [""] + rest else [[v[0]] + rest[0]] + rest[1..]
  }

  predicate Wordy(v: string, cfg: Config) {
    v != "" && AreWords(Split(v)) && Shown(v, cfg)
  }

  /** What a node follows: nothing, something on whose line it may begin, or something it begins a line after. */
  datatype Lead = AtStart | SameLine | NextLine

  /** The text moved on to column n. */
  function Begun(t: string, n: nat, lead: Lead): string {
    match lead
    case AtStart => t
    case SameLine => if Column(t) < n then t + Spaces(n - Column(t)) else t + NewLine(n)
    case NextLine => t + NewLine(n)
  }

  /** The column of a collection inside one in column `outer`. */
  function Inner(outer: int, place: Place, step: nat): int
    requires step > 0
  {
    match place
    case Root => 0
    case InList => outer + 2
    case InObject => outer + step - outer % step
  }

  /** Where the lines of a scalar begin after its first one. */
  function ScalarMargin(outer: int, place: Place, step: nat): int
    requires step > 0
  {
    if place == Root then step else Inner(outer, place, step)
  }

  /** The emitter's pen behind a text. */
  function PenAt(t: string, blank: bool, indention: bool): Pen {
    Pen(t, Column(t), LinesBefore(t), blank, indention, false)
  }

  /** A scalar of words is filled into lines, in quotes if need be; for any other, what the emitter writes. */
  function ScalarForm(t: string, v: string, requested: Style, place: Place, key: bool, lead: Lead,
                      outer: int, cfg: Config): string
    requires ValidConfig(cfg)
  {
    var margin := ScalarMargin(outer, place, cfg.bestIndent);
    var start := if lead == AtStart then t else t + " ";
    if v == "" && requested != Plain then start + Quote(requested) + Quote(requested)
    else if Wordy(v, cfg) && margin >= 0 then
      var style := StyleOfWords(Split(v), requested);
      Filled(start + Quote(style), Split(v), style, !key, margin, cfg.bestWidth) + Quote(style)
    else EmitScalar(PenAt(t, lead == AtStart, lead != NextLine), v, requested, place, key, outer, cfg).out
  }

  /** A key on one line, of at most 128 bytes. */
  predicate KeyFits(key: string) {
    Breakless(key) && |Unicode.EncodeAll(key)| <= 128
  }

  function TreeForm(t: string, tree: Tree, place: Place, lead: Lead, outer: int, env: Env): string
    requires ValidEnv(env)
    decreases tree, 1
  {
    var n := Inner(outer, place, env.cfg.bestIndent);
    var gap := if lead == AtStart then "" else " ";
    match tree
    case TList(items) => if items == [] then t + gap + "[]" else ItemsForm(t, items, lead, n, env)
    case TObject(entries) => if entries == [] then t + gap + "{}" else EntriesForm(t, entries, lead, n, env)
    case _ => ScalarForm(t, LeafText(tree), LeafStyle(tree, env), place, false, lead, outer, env.cfg)
  }

  function ItemsForm(t: string, items: seq<Tree>, lead: Lead, n: int, env: Env): string
    requires ValidEnv(env)
    decreases items, 0
  {
    if items == [] then t
    else
      var dash := Begun(t, Margin(n), lead) + "-";
      ItemsForm(TreeForm(dash, items[0], InList, SameLine, n, env), items[1..], NextLine, n, env)
  }

  /** The key and its colon; a long one is marked, and its colon begins a line. */
  function KeyForm(t: string, key: string, lead: Lead, n: int, env: Env): string
    requires ValidEnv(env)
  {
    var u, style := Begun(t, Margin(n), lead), env.styleOf(key);
    if KeyFits(key) then ScalarForm(u, key, style, InObject, true, AtStart, n, env.cfg) + ":"
    else ScalarForm(u + "?", key, style, InObject, false, SameLine, n, env.cfg) + NewLine(Margin(n)) + ":"
  }

  function EntriesForm(t: string, entries: seq<Entry>, lead: Lead, n: int, env: Env): string
    requires ValidEnv(env)
    decreases entries, 0
  {
    if entries == [] then t
    else
      var key, value := entries[0].key, entries[0].value;
      var colon := KeyForm(t, key, lead, n, env);
      EntriesForm(TreeForm(colon, value, InObject, if KeyFits(key) then NextLine else SameLine, n, env),
                  entries[1..], NextLine, n, env)
  }

  /** A root scalar without quotes is followed by a document end. */
  function DocumentForm(tree: Tree, env: Env): string
    requires ValidEnv(env)
  {
    TreeForm("", tree, Root, AtStart, -1, env) + "\n" + if RootPlain(tree, env) then "...\n" else ""
  }

  predicate RootPlain(tree: Tree, env: Env) {
    IsLeaf(tree) && SelectStyle(LeafStyle(tree, env), LeafText(tree), false, false, env.cfg) == Plain
  }

  // ---------- columns ----------

  /** The pen knows the column and the line that its text has come to. */
  ghost predicate Tracks(p: Pen) {
    p.column == Column(p.out) && p.line == LinesBefore(p.out)
  }

  lemma ColumnOne(t: string, c: char)
    ensures Column(t + [c]) == if IsBreak(c) then 0 else Column(t) + 1
    ensures LinesBefore(t + [c]) == LinesBefore(t) + if IsBreak(c) then 1 else 0
  {
    assert (t + [c])[..|t|] == t;
  }

  predicate Breakless(s: string) {
    forall i :: 0 <= i < |s| ==> !IsBreak(s[i])
  }

  lemma {:induction false} ColumnMore(t: string, s: string)
    requires Breakless(s)
    ensures Column(t + s) == Column(t) + |s| && LinesBefore(t + s) == LinesBefore(t)
    decreases |s|
  {
    if s == "" {
      assert t + s == t;
    } else {
      var last := |s| - 1;
      ColumnMore(t, s[..last]);
      ColumnOne(t + s[..last], s[last]);
      assert t + s == t + s[..last] + [s[last]];
    }
  }

  lemma LineBegun(t: string, n: nat)
    ensures Column(t + NewLine(n)) == n && LinesBefore(t + NewLine(n)) == LinesBefore(t) + 1
  {
    ColumnOne(t, '\n');
    ColumnMore(t + "\n", Spaces(n));
    assert t + NewLine(n) == t + "\n" + Spaces(n);
  }

  lemma BreakTracks(p: Pen)
    requires Tracks(p)
    ensures Tracks(PutBreak(p))
  {
    hide Column, LinesBefore;
    ColumnOne(p.out, '\n');
    assert p.out + "\n" == p.out + ['\n'];
  }

  lemma AllTracks(p: Pen, s: string)
    requires Tracks(p) && Breakless(s)
    ensures Tracks(PutAll(p, s))
  {
    hide Column, LinesBefore;
    ColumnMore(p.out, s);
  }

  /** Only the text, its column and its line matter. */
  lemma SameTracks(p: Pen, q: Pen)
    requires Tracks(p) && q.out == p.out && q.column == p.column && q.line == p.line
    ensures Tracks(q)
  {
    hide Column, LinesBefore;
  }

  lemma IndentTracks(p: Pen, n: int)
    requires Tracks(p)
    ensures Tracks(WriteIndent(p, n))
  {
    hide Tracks, Breakless;
    if BreaksLine(p, Margin(n)) { BreakTracks(p); }
    var q := if BreaksLine(p, Margin(n)) then PutBreak(p) else p;
    var gap := Spaces(if q.column < Margin(n) then Margin(n) - q.column else 0);
    assert Breakless(gap) by { SpacesBreakless(|gap|); }
    AllTracks(q, gap);
    SameTracks(PutAll(q, gap), WriteIndent(p, n));
  }

  lemma SpacesBreakless(n: nat)
    ensures Breakless(Spaces(n))
  {
  }

  lemma IndicatorTracks(p: Pen, s: string, need: bool, blank: bool, indention: bool)
    requires Tracks(p) && Breakless(s)
    ensures Tracks(WriteIndicator(p, s, need, blank, indention))
  {
    hide Tracks, Breakless;
    var q := if need && !p.whitespace then Put(p, ' ') else p;
    if need && !p.whitespace {
      assert Breakless(" ") by { SpacesBreakless(1); assert Spaces(1) == " "; }
      AllTracks(p, " ");
      SameTracks(PutAll(p, " "), q);
    }
    AllTracks(q, s);
    SameTracks(PutAll(q, s), WriteIndicator(p, s, need, blank, indention));
  }

  lemma EscapeBreakless(c: char)
    ensures Breakless(EscapeText(c))
  {
    LookupFinds(NAMED, c, 0);
    HexBreakless(c as int, 2);
    HexBreakless(c as int, 4);
    HexBreakless(c as int, 8);
    assert forall j :: 0 <= j < |NAMED| ==> !IsBreak(NAMED[j].1);
  }

  lemma {:induction false} HexBreakless(x: nat, n: nat)
    ensures Breakless(HexDigits(x, n))
  {
    if n > 0 { HexBreakless(x / 16, n - 1); }
  }

  lemma DoubleStepTracks(p: Pen, v: string, i: nat, spaces: bool, allow: bool, indent: int, cfg: Config)
    requires Tracks(p) && i < |v|
    ensures Tracks(DoubleStep(p, v, i, spaces, allow, indent, cfg))
  {
    hide EscapeText, WriteIndent, Column, LinesBefore;
    EscapeBreakless(v[i]);
    ColumnMore(p.out, EscapeText(v[i]));
    ColumnOne(p.out, v[i]);
    IndentTracks(p, indent);
    ColumnOne(WriteIndent(p, indent).out, '\\');
  }

  lemma LineStepTracks(p: Pen, c: char, folds: bool, breaks: bool, quote: bool, indent: int)
    requires Tracks(p)
    ensures Tracks(LineStep(p, c, folds, breaks, quote, indent))
  {
    hide WriteIndent, Column, LinesBefore;
    IndentTracks(p, indent);
    ColumnOne(p.out, c);
    ColumnOne(p.out, '\n');
    ColumnOne(p.out + "\n", c);
    var q := if breaks then WriteIndent(p, indent) else p;
    ColumnOne(q.out, '\'');
    ColumnOne(q.out, c);
    ColumnOne(q.out + "'", c);
  }

  lemma {:induction false} DoubleTracks(p: Pen, v: string, i: nat, spaces: bool, allow: bool, indent: int, cfg: Config)
    requires Tracks(p) && i <= |v|
    ensures Tracks(DoubleBody(p, v, i, spaces, allow, indent, cfg))
    decreases |v| - i
  {
    hide Tracks, DoubleStep;
    if i < |v| {
      DoubleStepTracks(p, v, i, spaces, allow, indent, cfg);
      DoubleTracks(DoubleStep(p, v, i, spaces, allow, indent, cfg), v, i + 1, PlainSpace(v, i, cfg), allow, indent,
                   cfg);
    }
  }

  lemma {:induction false} SingleTracks(p: Pen, v: string, i: nat, spaces: bool, breaks: bool, allow: bool,
                                        indent: int, cfg: Config)
    requires Tracks(p) && i <= |v|
    ensures Tracks(SingleBody(p, v, i, spaces, breaks, allow, indent, cfg))
    decreases |v| - i
  {
    hide Tracks, LineStep;
    if i < |v| {
      var folds := FoldsSingle(p, v, i, allow, spaces, cfg);
      LineStepTracks(p, v[i], folds, breaks, true, indent);
      SingleTracks(LineStep(p, v[i], folds, breaks, true, indent), v, i + 1,
                   SpacesAfter(v[i], spaces), BreaksAfter(v[i], breaks), allow, indent, cfg);
    }
  }

  lemma {:induction false} PlainTracks(p: Pen, v: string, i: nat, spaces: bool, breaks: bool, allow: bool,
                                       indent: int, cfg: Config)
    requires Tracks(p) && i <= |v|
    ensures Tracks(PlainBody(p, v, i, spaces, breaks, allow, indent, cfg))
    ensures PlainBody(p, v, i, spaces, breaks, allow, indent, cfg).openEnded == p.openEnded
    decreases |v| - i
  {
    hide Tracks;
    if i < |v| {
      var folds := FoldsPlain(p, v, i, allow, spaces, cfg);
      LineStepTracks(p, v[i], folds, breaks, false, indent);
      PlainTracks(LineStep(p, v[i], folds, breaks, false, indent), v, i + 1,
                  SpacesAfter(v[i], spaces), BreaksAfter(v[i], breaks), allow, indent, cfg);
    }
  }

  lemma ScalarTracks(p: Pen, v: string, style: Style, root: bool, allow: bool, indent: int, cfg: Config)
    requires Tracks(p) && !p.openEnded
    ensures var q := WriteScalar(p, v, style, root, allow, indent, cfg);
      Tracks(q) && (q.openEnded <==> style == Plain && root)
  {
    hide DoubleBody, SingleBody, PlainBody, Column, LinesBefore;
    match style
    case Plain =>
      ColumnOne(p.out, ' ');
      PlainTracks(if v != "" && !p.whitespace then Put(p, ' ') else p, v, 0, false, false, allow, indent, cfg);
    case SingleQuoted =>
      IndicatorTracks(p, "'", true, false, false);
      var q := WriteIndicator(p, "'", true, false, false);
      SingleTracks(q, v, 0, false, false, allow, indent, cfg);
      IndicatorTracks(SingleBody(q, v, 0, false, false, allow, indent, cfg), "'", false, false, false);
    case DoubleQuoted =>
      IndicatorTracks(p, "\"", true, false, false);
      var q := WriteIndicator(p, "\"", true, false, false);
      DoubleTracks(q, v, 0, false, allow, indent, cfg);
      IndicatorTracks(DoubleBody(q, v, 0, false, allow, indent, cfg), "\"", false, false, false);
  }
}
