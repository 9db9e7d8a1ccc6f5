/**
 What the emitter's output primitives do to the text written so far and to the few
 variables that later output depends on.
 */
module Pens {
  import opened Chars

  /** bestIndent, bestWidth and unicode as they stand once STREAM-START was emitted. */
  datatype Config = Config(bestIndent: nat, bestWidth: int, unicode: bool)

  ghost predicate ValidConfig(cfg: Config) {
    2 <= cfg.bestIndent <= 9
  }

  datatype Pen = Pen(out: string, column: nat, line: nat,
                     whitespace: bool, indention: bool, openEnded: bool)

  const StartPen := Pen("", 0, 0, true, true, false)

  /** The scanner's position once it has read everything the pen has written. */
  function MarkOf(p: Pen): Mark {
    Mark(|p.out|, p.line, p.column)
  }

  function Put(p: Pen, c: char): Pen {
    p.(out := p.out + [c], column := p.column + 1)
  }

  function PutAll(p: Pen, s: string): Pen {
    p.(out := p.out + s, column := p.column + |s|)
  }

  function PutBreak(p: Pen): Pen {
    p.(out := p.out + "\n", column := 0, line := p.line + 1, indention := true)
  }

  /** A line break taken from a value: LF as the chosen break, LS and PS as they are. */
  function WriteBreak(p: Pen, c: char): Pen {
    if c == '\n' then PutBreak(p)
    else p.(out := p.out + [c], column := 0, line := p.line + 1, indention := true)
  }

  function Spaces(n: nat): (s: string)
    ensures |s| == n && forall k :: 0 <= k < n ==> s[k] == ' '
  {
    seq(n, _ => ' ')
  }

  function Margin(indent: int): nat {
    if indent < 0 then 0 else indent
  }

  predicate BreaksLine(p: Pen, n: nat) {
    !p.indention || p.column > n || (p.column == n && !p.whitespace)
  }

  function PadTo(p: Pen, n: nat): Pen {
    var k := if p.column < n then n - p.column else 0;
    p.(out := p.out + Spaces(k), column := p.column + k)
  }

  function WriteIndent(p: Pen, indent: int): Pen {
    var n := Margin(indent);
    PadTo(if BreaksLine(p, n) then PutBreak(p) else p, n).(whitespace := true)
  }

  function WriteIndicator(p: Pen, s: string, needWhitespace: bool,
                          isWhitespace: bool, isIndention: bool): Pen
  {
    var q := PutAll(if needWhitespace && !p.whitespace then Put(p, ' ') else p, s);
    q.(whitespace := isWhitespace, indention := q.indention && isIndention, openEnded := false)
  }

  /** The indentation of a collection or scalar inside one indented by `indent`. */
  function IncreaseIndent(indent: int, flow: bool, inSequence: bool, cfg: Config): int
    requires ValidConfig(cfg)
  {
    if indent < 0 then (if flow then cfg.bestIndent else 0)
    else if inSequence then indent + 2
    else cfg.bestIndent * ((indent + cfg.bestIndent) / cfg.bestIndent)
  }

  /** The pen at the first character of a scalar written after p. */
  function ScalarAt(p: Pen): Pen {
    if !p.whitespace then Put(p, ' ') else p
  }

  /**
   A root collection stands in column 0, and a flow collection or scalar there one step in; what
   is in a list stands two columns further in; anything else, at the next multiple of the step.
   */
  lemma IndentGrows(indent: int, flow: bool, inSequence: bool, cfg: Config)
    requires ValidConfig(cfg)
    ensures var inner, step := IncreaseIndent(indent, flow, inSequence, cfg), cfg.bestIndent;
      && inner > indent && inner >= 0 && (flow ==> inner >= 1)
      && (indent < 0 ==> inner == if flow then step else 0)
      && (indent >= 0 && inSequence ==> inner == indent + 2)
      && (indent >= 0 && !inSequence ==> indent < inner <= indent + step && inner % step == 0)
  {
    if 0 <= indent && !inSequence {
      var b := cfg.bestIndent;
      var q := (indent + b) / b;
      assert indent + b == b * q + (indent + b) % b;
      MultipleOf(b, q);
    }
  }

  lemma {:induction false} MultipleOf(b: nat, q: nat)
    requires b >= 1
    ensures b * q % b == 0
  {
    if q > 0 {
      MultipleOf(b, q - 1);
      OneMore(b * (q - 1), b);
      assert b * q == b * (q - 1) + b;
    }
  }

  lemma OneMore(x: nat, b: nat)
    requires b >= 1
    ensures (x + b) % b == x % b
  {
    var k := x / b;
    assert x + b == b * (k + 1) + x % b;
    Remainder(x + b, b, k + 1, x % b);
  }

  lemma Remainder(x: nat, b: nat, k: nat, r: nat)
    requires b >= 1 && x == b * k + r && r < b
    ensures x % b == r
  {
    var d := x / b - k;
    assert b * d == r - x % b by { assert b * (x / b) == x - x % b; }
  }
}
