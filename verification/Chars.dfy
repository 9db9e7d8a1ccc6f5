/**
 The character classes of the YAML package, over Unicode scalar values, and the text
 position that both the emitter and the scanner keep.
 */
module Chars {

  const NUL: char := '\0'
  const NEL: char := '\U{0085}'
  const LS: char := '\U{2028}'
  const PS: char := '\U{2029}'
  const BOM: char := '\U{FEFF}'

  predicate IsBlank(c: char) {
    c == ' ' || c == '\t'
  }

  predicate IsBreak(c: char) {
    c == '\r' || c == '\n' || c == NEL || c == LS || c == PS
  }

  predicate IsBlankz(c: char) {
    IsBlank(c) || IsBreak(c) || c == NUL
  }

  predicate IsAscii(c: char) {
    c as int <= 0x7F
  }

  /** May be printed unescaped. Characters outside the Basic Multilingual Plane may not. */
  predicate IsPrintable(c: char) {
    || c == '\n'
    || 0x20 <= c as int <= 0x7E
    || 0xA0 <= c as int <= 0xD7FF
    || (0xE000 <= c as int <= 0xFFFD && c != BOM)
  }

  predicate IsHex(c: char) {
    '0' <= c <= '9' || 'A' <= c <= 'F' || 'a' <= c <= 'f'
  }

  function AsHex(c: char): (d: nat)
    requires IsHex(c)
    ensures d < 16
  {
    if 'A' <= c <= 'F' then c as int - 'A' as int + 10
    else if 'a' <= c <= 'f' then c as int - 'a' as int + 10
    else c as int - '0' as int
  }

  /** The character at position k of a text that is followed by NULs for ever. */
  function Ch(t: string, k: nat): char {
    if k < |t| then t[k] else NUL
  }

  /** The text reads s at position k. */
  ghost predicate Reads(t: string, k: nat, s: string) {
    forall j :: 0 <= j < |s| ==> Ch(t, k + j) == s[j]
  }

  lemma ReadsPart(t: string, k: nat, a: string, b: string)
    requires Reads(t, k, a + b)
    ensures Reads(t, k, a) && Reads(t, k + |a|, b)
  {
    forall j | 0 <= j < |a| ensures Ch(t, k + j) == a[j] {
      assert (a + b)[j] == a[j];
    }
    forall j | 0 <= j < |b| ensures Ch(t, k + |a| + j) == b[j] {
      assert (a + b)[|a| + j] == b[j];
    }
  }

  lemma ReadsAfter(t: string, a: string, s: string)
    requires a + s <= t
    ensures Reads(t, |a|, s)
  {
    forall j | 0 <= j < |s| ensures Ch(t, |a| + j) == s[j] {
      assert (a + s)[|a| + j] == s[j];
    }
  }

  lemma ReadsFirst(t: string, k: nat, s: string)
    requires Reads(t, k, s) && s != ""
    ensures Ch(t, k) == s[0]
    ensures |s| > 1 ==> Ch(t, k + 1) == s[1]
    ensures Reads(t, k + 1, s[1..])
  {
    assert Ch(t, k + 0) == s[0];
    assert s == [s[0]] + s[1..];
    ReadsPart(t, k, [s[0]], s[1..]);
  }

  /** A position of the scanner, counted in characters. */
  datatype Mark = Mark(index: nat, line: nat, column: nat)

  function Skip(m: Mark): Mark {
    Mark(m.index + 1, m.line, m.column + 1)
  }

  /** Steps over the line break at m, taking CR LF as one. */
  function SkipLine(t: string, m: Mark): Mark {
    var two := Ch(t, m.index) == '\r' && Ch(t, m.index + 1) == '\n';
    Mark(m.index + (if two then 2 else 1), m.line + 1, 0)
  }

  /** What a scalar receives for the line break c: LS and PS stay, the others become LF. */
  function BreakText(c: char): string {
    if c == LS || c == PS then [c] else "\n"
  }

  /** "---" or "..." in column 0, followed by a blank, a break or the end. */
  predicate DocIndicatorAt(t: string, m: Mark) {
    && m.column == 0
    && (Ch(t, m.index) == '-' || Ch(t, m.index) == '.')
    && Ch(t, m.index + 1) == Ch(t, m.index)
    && Ch(t, m.index + 2) == Ch(t, m.index)
    && IsBlankz(Ch(t, m.index + 3))
  }

  /** The entry of a switch table, or "" when no case of it (from the k-th on) is c. */
  function Lookup(table: seq<(char, char)>, c: char, k: nat): string
    decreases |table| - k
  {
    if k >= |table| then ""
    else if table[k].0 == c then [table[k].1]
    else Lookup(table, c, k + 1)
  }

  lemma {:induction false} LookupFinds(table: seq<(char, char)>, c: char, k: nat)
    ensures Lookup(table, c, k) == ""
      || exists j :: k <= j < |table| && table[j].0 == c && Lookup(table, c, k) == [table[j].1]
    decreases |table| - k
  {
    if k < |table| && table[k].0 != c {
      LookupFinds(table, c, k + 1);
    }
  }

  lemma {:induction false} LookupAt(table: seq<(char, char)>, k: nat, j: nat)
    requires k <= j < |table|
    requires forall i :: k <= i < j ==> table[i].0 != table[j].0
    ensures Lookup(table, table[j].0, k) == [table[j].1]
    decreases j - k
  {
    if k < j {
      LookupAt(table, k + 1, j);
    }
  }
}
