/**
 What the plain, single-quoted and double-quoted writers put after the pen. Each loop of
 the source is a function of the pen, the position i in the value and the loop's flags.
 */
module ScalarWriters {
  import opened Chars
  import opened Pens

  // ---------- double-quoted ----------

  /** is_bom looks at the first bytes of the value whatever the position asked for. */
  predicate StartsWithBom(v: string) {
    v != "" && v[0] == BOM
  }

  predicate NeedsEscape(v: string, i: nat, cfg: Config)
    requires i < |v|
  {
    || !IsPrintable(v[i])
    || (!cfg.unicode && !IsAscii(v[i]))
    || StartsWithBom(v)
    || IsBreak(v[i])
    || v[i] == '"'
    || v[i] == '\\'
  }

  function HexDigit(d: nat): char
    requires d < 16
  {
    if d < 10 then ('0' as int + d) as char else ('A' as int + d - 10) as char
  }

  function HexDigits(x: nat, n: nat): (s: string)
    ensures |s| == n
  {
    if n == 0 then "" else HexDigits(x / 16, n - 1) + [HexDigit(x % 16)]
  }

  /** The characters that have an escape of their own. */
  const NAMED: seq<(char, char)> := [
    ('\0', '0'), ('\U{7}', 'a'), ('\U{8}', 'b'), ('\t', 't'), ('\n', 'n'), ('\U{B}', 'v'),
    ('\U{C}', 'f'), ('\r', 'r'), ('\U{1B}', 'e'), ('"', '"'), ('\\', '\\'), (NEL, 'N'),
    ('\U{A0}', '_'), (LS, 'L'), (PS, 'P')
  ]

  function HexEscape(x: nat): string {
    if x <= 0xFF then "x" + HexDigits(x, 2)
    else if x <= 0xFFFF then "u" + HexDigits(x, 4)
    else "U" + HexDigits(x, 8)
  }

  function EscapeText(c: char): string {
    var name := Lookup(NAMED, c, 0);
    "\\" + if name != "" then name else HexEscape(c as int)
  }

  predicate FoldsDouble(p: Pen, v: string, i: nat, allow: bool, spaces: bool, cfg: Config) {
    allow && !spaces && p.column > cfg.bestWidth && 0 < i < |v| - 1
  }

  /** A space written as one, or folded; every other character ends a run of spaces. */
  predicate PlainSpace(v: string, i: nat, cfg: Config)
    requires i < |v|
  {
    v[i] == ' ' && !NeedsEscape(v, i, cfg)
  }

  /** One turn of the loop: what is written for the character at i. */
  function DoubleStep(p: Pen, v: string, i: nat, spaces: bool,
                      allow: bool, indent: int, cfg: Config): Pen
    requires i < |v|
  {
    if NeedsEscape(v, i, cfg) then PutAll(p, EscapeText(v[i]))
    else if v[i] == ' ' && FoldsDouble(p, v, i, allow, spaces, cfg) then
      var q := WriteIndent(p, indent);
      if v[i + 1] == ' ' then Put(q, '\\') else q
    else Put(p, v[i])
  }

  function DoubleBody(p: Pen, v: string, i: nat, spaces: bool,
                      allow: bool, indent: int, cfg: Config): Pen
    requires i <= |v|
    decreases |v| - i
  {
    if i == |v| then p
    else DoubleBody(DoubleStep(p, v, i, spaces, allow, indent, cfg),
                    v, i + 1, PlainSpace(v, i, cfg), allow, indent, cfg)
  }

  function WriteDouble(p: Pen, v: string, allow: bool, indent: int, cfg: Config): Pen {
    var q := WriteIndicator(p, "\"", true, false, false);
    var r := DoubleBody(q, v, 0, false, allow, indent, cfg);
    WriteIndicator(r, "\"", false, false, false)
  }

  // ---------- single-quoted ----------

  predicate FoldsSingle(p: Pen, v: string, i: nat, allow: bool, spaces: bool, cfg: Config) {
    allow && !spaces && p.column > cfg.bestWidth && 0 < i < |v| - 1 && v[i + 1] != ' '
  }

  /** One turn of the loop of either writer of unescaped text. */
  function LineStep(p: Pen, c: char, folds: bool, breaks: bool, quote: bool, indent: int): (r: Pen)
    ensures p.out <= r.out && p.line <= r.line
  {
    if c == ' ' then (if folds then WriteIndent(p, indent) else Put(p, ' '))
    else if IsBreak(c) then WriteBreak(if !breaks && c == '\n' then PutBreak(p) else p, c)
    else
      var q := if breaks then WriteIndent(p, indent) else p;
      var r := if quote && c == '\'' then Put(q, '\'') else q;
      Put(r, c).(indention := false)
  }

  /** The flags after c; a space leaves `breaks` alone, a break leaves `spaces` alone. */
  predicate SpacesAfter(c: char, spaces: bool) {
    c == ' ' || (spaces && IsBreak(c))
  }

  predicate BreaksAfter(c: char, breaks: bool) {
    IsBreak(c) || (breaks && c == ' ')
  }

  function SingleBody(p: Pen, v: string, i: nat, spaces: bool, breaks: bool,
                      allow: bool, indent: int, cfg: Config): Pen
    requires i <= |v|
    decreases |v| - i
  {
    if i == |v| then p
    else
      var folds := FoldsSingle(p, v, i, allow, spaces, cfg);
      SingleBody(LineStep(p, v[i], folds, breaks, true, indent), v, i + 1,
                 SpacesAfter(v[i], spaces), BreaksAfter(v[i], breaks), allow, indent, cfg)
  }

  function WriteSingle(p: Pen, v: string, allow: bool, indent: int, cfg: Config): Pen {
    var q := WriteIndicator(p, "'", true, false, false);
    var r := SingleBody(q, v, 0, false, false, allow, indent, cfg);
    WriteIndicator(r, "'", false, false, false).(whitespace := false, indention := false)
  }

  // ---------- plain ----------

  /** The source looks one past a space; a value it writes plainly never ends in one. */
  predicate FoldsPlain(p: Pen, v: string, i: nat, allow: bool, spaces: bool, cfg: Config) {
    allow && !spaces && p.column > cfg.bestWidth && Ch(v, i + 1) != ' '
  }

  function PlainBody(p: Pen, v: string, i: nat, spaces: bool, breaks: bool,
                     allow: bool, indent: int, cfg: Config): Pen
    requires i <= |v|
    decreases |v| - i
  {
    if i == |v| then p
    else
      var folds := FoldsPlain(p, v, i, allow, spaces, cfg);
      PlainBody(LineStep(p, v[i], folds, breaks, false, indent), v, i + 1,
                SpacesAfter(v[i], spaces), BreaksAfter(v[i], breaks), allow, indent, cfg)
  }

  function WritePlain(p: Pen, v: string, root: bool, allow: bool, indent: int, cfg: Config): Pen {
    var q := if v != "" && !p.whitespace then Put(p, ' ') else p;
    var r := PlainBody(q, v, 0, false, false, allow, indent, cfg);
    r.(whitespace := r.whitespace && v == "", indention := false, openEnded := r.openEnded || root)
  }
}
