/**
 The quoted and plain scalar scanners as functions of the text and the position. Each
 function stands for one point of the source's nested loops; its arguments are the
 variables alive there.
 */
module ScalarScan {
  import opened Chars

  datatype ScanError =
    | DocumentIndicator
    | EndOfStream
    | UnknownEscape
    | BadHexDigit
    | BadCodePoint
    | TabIndentation

  datatype FlowResult = FlowOk(value: string, end: Mark) | FlowErr(error: ScanError, at: Mark)

  /** The escapes of one character. */
  const SIMPLE: seq<(char, char)> := [
    ('0', '\0'), ('a', '\U{7}'), ('b', '\U{8}'), ('t', '\t'), ('\t', '\t'), ('n', '\n'),
    ('v', '\U{B}'), ('f', '\U{C}'), ('r', '\r'), ('e', '\U{1B}'), (' ', ' '), ('"', '"'),
    ('\'', '\''), ('\\', '\\'), ('N', NEL), ('_', '\U{A0}'), ('L', LS), ('P', PS)
  ]

  function CodeLength(c: char): nat {
    if c == 'x' then 2 else if c == 'u' then 4 else if c == 'U' then 8 else 0
  }

  function Advance(m: Mark, n: nat): Mark {
    Mark(m.index + n, m.line, m.column + n)
  }

  predicate HexRun(t: string, k: nat, n: nat) {
    forall j :: k <= j < k + n ==> IsHex(Ch(t, j))
  }

  function HexValue(t: string, k: nat, n: nat): nat
    requires HexRun(t, k, n)
  {
    if n == 0 then 0 else HexValue(t, k, n - 1) * 16 + AsHex(Ch(t, k + n - 1))
  }

  predicate IsScalarValue(x: nat) {
    x <= 0x10FFFF && !(0xD800 <= x <= 0xDFFF)
  }

  /** The end of the scalar, or the first break of a fold, or a step over one character. */
  predicate AtQuote(t: string, single: bool, m: Mark) {
    Ch(t, m.index) == if single then '\'' else '"'
  }

  /** Joins what blanks and breaks were read: kept blanks, or the folded breaks. */
  function Join(ws: string, lead: string, trail: string, leading: bool): string {
    if !leading then ws
    else if lead != "" && lead[0] == '\n' then (if trail == "" then " " else trail)
    else lead + trail
  }

  function Left(t: string, m: Mark): nat {
    if m.index < |t| then |t| - m.index else 0
  }

  /** Not in front of m. */
  predicate Onward(m: Mark, n: Mark) {
    n.index >= m.index && (n.line > m.line || (n.line == m.line && n.column >= m.column))
  }

  /** Behind m: in the text, and on the line or on a later one. */
  predicate Beyond(m: Mark, n: Mark) {
    n.index > m.index && (n.line > m.line || (n.line == m.line && n.column > m.column))
  }

  predicate BlankOrBreak(c: char) {
    IsBlank(c) || IsBreak(c)
  }

  /** What the escape whose backslash is at k stands for, and its length. */
  datatype Escape = Escape(c: char, length: nat) | BadEscape(error: ScanError, offset: nat)

  function ReadEscape(t: string, k: nat): Escape {
    var e := Ch(t, k + 1);
    var n := CodeLength(e);
    var simple := Lookup(SIMPLE, e, 0);
    if simple != "" then Escape(simple[0], 2)
    else if n == 0 then BadEscape(UnknownEscape, 0)
    else if !HexRun(t, k + 2, n) then BadEscape(BadHexDigit, 2)
    else if !IsScalarValue(HexValue(t, k + 2, n)) then BadEscape(BadCodePoint, 2)
    else Escape(HexValue(t, k + 2, n) as char, 2 + n)
  }

  function FlowTop(t: string, single: bool, m: Mark, s: string): FlowResult
    decreases Left(t, m), 3
  {
    if DocIndicatorAt(t, m) then FlowErr(DocumentIndicator, m)
    else if Ch(t, m.index) == NUL then FlowErr(EndOfStream, m)
    else FlowChars(t, single, m, s)
  }

  function FlowChars(t: string, single: bool, m: Mark, s: string): FlowResult
    decreases Left(t, m), 2
  {
    var c := Ch(t, m.index);
    var next := Ch(t, m.index + 1);
    if c == NUL then FlowErr(EndOfStream, m)
    else if BlankOrBreak(c) then FlowBlanks(t, single, m, s, "", "", "", false)
    else if single && c == '\'' && next == '\'' then
      FlowChars(t, single, Skip(Skip(m)), s + "'")
    else if AtQuote(t, single, m) then FlowOk(s, Skip(m))
    else if !single && c == '\\' && IsBreak(next) then
      var m' := SkipLine(t, Skip(m));
      if AtQuote(t, single, m') then FlowOk(s, Skip(m'))
      else FlowBlanks(t, single, m', s, "", "", "", true)
    else if !single && c == '\\' then
      match ReadEscape(t, m.index)
      case BadEscape(error, offset) => FlowErr(error, Advance(m, offset))
      case Escape(x, n) => FlowChars(t, single, Advance(m, n), s + [x])
    else FlowChars(t, single, Skip(m), s + [c])
  }

  function FlowBlanks(t: string, single: bool, m: Mark, s: string,
                      ws: string, lead: string, trail: string, leading: bool): FlowResult
    decreases Left(t, m), if BlankOrBreak(Ch(t, m.index)) then 1 else 4
  {
    var c := Ch(t, m.index);
    if IsBlank(c) then
      FlowBlanks(t, single, Skip(m), s, if leading then ws else ws + [c], lead, trail, leading)
    else if IsBreak(c) then
      if leading then FlowBlanks(t, single, SkipLine(t, m), s, ws, lead, trail + BreakText(c), true)
      else FlowBlanks(t, single, SkipLine(t, m), s, "", lead + BreakText(c), trail, true)
    else FlowTop(t, single, m, s + Join(ws, lead, trail, leading))
  }

  /** The scan of a quoted scalar whose left quote is at m. */
  function ScanFlow(t: string, single: bool, m: Mark): FlowResult {
    FlowTop(t, single, Skip(m), "")
  }

  // ---------- plain ----------

  datatype PlainResult =
    | PlainOk(value: string, end: Mark, next: Mark, leading: bool)
    | PlainErr(error: ScanError, at: Mark)

  /** Ends a plain scalar: ": " and, inside a flow collection, a flow indicator. */
  predicate EndsPlain(t: string, flow: nat, k: nat) {
    || (Ch(t, k) == ':' && IsBlankz(Ch(t, k + 1)))
    || (flow > 0 && Ch(t, k) in ",?[]{}")
  }

  function PlainTop(t: string, flow: nat, indent: int, m: Mark, s: string, end: Mark,
                    ws: string, lead: string, trail: string, leading: bool): PlainResult
    decreases Left(t, m), 3
  {
    if DocIndicatorAt(t, m) || Ch(t, m.index) == '#' then PlainOk(s, end, m, leading)
    else PlainChars(t, flow, indent, m, s, end, ws, lead, trail, leading)
  }

  function PlainChars(t: string, flow: nat, indent: int, m: Mark, s: string, end: Mark,
                      ws: string, lead: string, trail: string, leading: bool): PlainResult
    decreases Left(t, m), 2
  {
    var c := Ch(t, m.index);
    if BlankOrBreak(c) then PlainBlanks(t, flow, indent, m, s, end, ws, lead, trail, leading)
    else if c == NUL || EndsPlain(t, flow, m.index) then PlainOk(s, end, m, leading)
    else PlainChars(t, flow, indent, Skip(m), s + Join(ws, lead, trail, leading) + [c], Skip(m),
                    "", "", "", false)
  }

  function PlainBlanks(t: string, flow: nat, indent: int, m: Mark, s: string, end: Mark,
                       ws: string, lead: string, trail: string, leading: bool): PlainResult
    decreases Left(t, m), if BlankOrBreak(Ch(t, m.index)) then 1 else 4
  {
    var c := Ch(t, m.index);
    if IsBlank(c) then
      if leading && m.column < indent && c == '\t' then PlainErr(TabIndentation, m)
      else PlainBlanks(t, flow, indent, Skip(m), s, end,
                       if leading then ws else ws + [c], lead, trail, leading)
    else if IsBreak(c) then
      if leading then
        PlainBlanks(t, flow, indent, SkipLine(t, m), s, end, ws, lead, trail + BreakText(c), true)
      else
        PlainBlanks(t, flow, indent, SkipLine(t, m), s, end, "", lead + BreakText(c), trail, true)
    else if flow == 0 && m.column < indent then PlainOk(s, end, m, leading)
    else PlainTop(t, flow, indent, m, s, end, ws, lead, trail, leading)
  }

  /** The scan of a plain scalar that starts at m inside a block indented by `parentIndent`. */
  function ScanPlain(t: string, flow: nat, parentIndent: int, m: Mark): PlainResult {
    PlainTop(t, flow, parentIndent + 1, m, "", m, "", "", "", false)
  }
}
