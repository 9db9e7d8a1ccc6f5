/**
 Scalars that fit on their line, or that must not be folded: whatever is in them, they are written
 character by character, each as it is or as its escape.
 */
module FlatScalars {
  import opened Chars
  import opened Pens
  import opened Analysis
  import opened ScalarWriters
  import opened Resolve
  import opened Layout
  import opened PrintedForm
  import opened PrintedWords

  /** Stands between double quotes as it is. */
  predicate Bare(c: char, cfg: Config) {
    c == ' ' || (WordChar(c) && c != '"' && c != '\\' && (cfg.unicode || c <= '~'))
  }

  /** The character in a value v; if that begins with U+FEFF, all of its characters are escaped. */
  function FlatChar(c: char, v: string, style: Style, cfg: Config): string {
    match style
    case Plain => [c]
    case SingleQuoted => if c == '\'' then "''" else [c]
    case DoubleQuoted => if Bare(c, cfg) && (v == "" || v[0] != '\U{FEFF}') then [c] else EscapeText(c)
  }

  function Flat(w: string, v: string, style: Style, cfg: Config): string {
    if w == "" then "" else FlatChar(w[0], v, style, cfg) + Flat(w[1..], v, style, cfg)
  }

  lemma BareJust(v: string, i: nat, cfg: Config)
    requires i < |v|
    ensures NeedsEscape(v, i, cfg) <==> !(Bare(v[i], cfg) && v[0] != '\U{FEFF}')
  {
  }

  lemma FlatFirst(v: string, i: nat, style: Style, cfg: Config)
    requires i < |v|
    ensures Flat(v[i..], v, style, cfg) == FlatChar(v[i], v, style, cfg) + Flat(v[i + 1..], v, style, cfg)
  {
    hide FlatChar;
    assert v[i..][0] == v[i] && v[i..][1..] == v[i + 1..];
  }

  /** One character, with none folded. */
  lemma FlatStep(j: Job, p: Pen, i: nat, spaces: bool) returns (q: Pen, next: bool)
    requires i < |j.v| && (j.style != DoubleQuoted ==> !IsBreak(j.v[i])) && (j.allow ==> p.column <= j.cfg.bestWidth)
    ensures Rest(j, p, i, spaces) == Rest(j, q, i + 1, next)
    ensures var s := FlatChar(j.v[i], j.v, j.style, j.cfg); q.out == p.out + s && q.column == p.column + |s|
  {
    hide EscapeText, WriteIndent, Bare, NeedsEscape, LineStep;
    var c := j.v[i];
    BareJust(j.v, i, j.cfg);
    LineFlat(p, c, j.style == SingleQuoted, j.indent);
    match j.style
    case Plain =>
      q, next := LineStep(p, c, false, false, false, j.indent), SpacesAfter(c, spaces);
    case SingleQuoted =>
      q, next := LineStep(p, c, false, false, true, j.indent), SpacesAfter(c, spaces);
    case DoubleQuoted =>
      q, next := DoubleStep(p, j.v, i, spaces, j.allow, j.indent, j.cfg), PlainSpace(j.v, i, j.cfg);
  }

  lemma LineFlat(p: Pen, c: char, quote: bool, indent: int)
    ensures !IsBreak(c) ==>
      var q, s := LineStep(p, c, false, false, quote, indent), if quote && c == '\'' then "''" else [c];
      q.out == p.out + s && q.column == p.column + |s|
  {
    assert p.out + ['\''] + ['\''] == p.out + "''";
  }

  lemma {:induction false} FlatOn(j: Job, p: Pen, i: nat, spaces: bool)
    requires i <= |j.v| && (j.style != DoubleQuoted ==> !HasBreak(j.v))
    requires j.allow ==> p.column + |Flat(j.v[i..], j.v, j.style, j.cfg)| <= j.cfg.bestWidth
    ensures Rest(j, p, i, spaces).out == p.out + Flat(j.v[i..], j.v, j.style, j.cfg)
    decreases |j.v| - i
  {
    hide Rest, FlatChar, Flat;
    if i == |j.v| {
      NothingFlat(j, p, i, spaces);
    } else {
      FlatFirst(j.v, i, j.style, j.cfg);
      var q, next := FlatStep(j, p, i, spaces);
      FlatOn(j, q, i + 1, next);
      var s, more := FlatChar(j.v[i], j.v, j.style, j.cfg), Flat(j.v[i + 1..], j.v, j.style, j.cfg);
      assert p.out + s + more == p.out + (s + more);
    }
  }

  lemma NothingFlat(j: Job, p: Pen, i: nat, spaces: bool)
    requires i == |j.v|
    ensures Flat(j.v[i..], j.v, j.style, j.cfg) == "" && Rest(j, p, i, spaces).out == p.out + ""
  {
    assert j.v[i..] == "";
  }

  /**
   Any value that fits on its line, or that must stay on one as keys do, is written on it: quoted or
   not, each character as it is, doubled, or as its escape.
   */
  lemma FlatWritten(p: Pen, v: string, style: Style, root: bool, allow: bool, indent: nat, cfg: Config)
    requires (style != DoubleQuoted ==> !HasBreak(v)) && (style == Plain ==> v != "")
    requires var start := (if p.whitespace then 0 else 1) + |Quote(style)|;
      allow ==> p.column + start + |Flat(v, v, style, cfg)| <= cfg.bestWidth
    ensures WriteScalar(p, v, style, root, allow, indent, cfg).out
         == p.out + (if p.whitespace then "" else " ") + Quote(style) + Flat(v, v, style, cfg) + Quote(style)
  {
    hide Flat, PlainBody, SingleBody, DoubleBody;
    var j := Job(v, style, allow, indent, cfg);
    assert v[0..] == v;
    match style
    case Plain =>
      var q := if !p.whitespace then Put(p, ' ') else p;
      FlatOn(j, q, 0, false);
      assert p.out + [' '] == p.out + " " && p.out + "" == p.out;
    case _ =>
      FlatOn(j, WriteIndicator(p, Quote(style), true, false, false), 0, false);
  }
}
