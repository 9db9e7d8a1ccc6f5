/**
 Text as the emitter and the scanner hold it: UTF-8 bytes and a position in them. The tests on
 bytes agree with those on characters wherever a character begins.
 */
module ByteText {
  import opened Chars
  import opened Unicode
  import opened Decoding

  type Bytes = seq<byte>

  // ---------- the tests of the source, on the bytes from i on ----------

  /** The byte at i, or -1 where the slice ends. */
  function At(b: Bytes, i: nat): int {
    if i < |b| then b[i] else -1
  }

  predicate IsSpaceAt(b: Bytes, i: nat) {
    At(b, i) == 0x20
  }

  predicate IsTabAt(b: Bytes, i: nat) {
    At(b, i) == 0x09
  }

  predicate IsBlankAt(b: Bytes, i: nat) {
    At(b, i) == 0x20 || At(b, i) == 0x09
  }

  predicate IsBreakAt(b: Bytes, i: nat) {
    || At(b, i) == 0x0D
    || At(b, i) == 0x0A
    || (At(b, i) == 0xC2 && At(b, i + 1) == 0x85)
    || (At(b, i) == 0xE2 && At(b, i + 1) == 0x80 && At(b, i + 2) == 0xA8)
    || (At(b, i) == 0xE2 && At(b, i + 1) == 0x80 && At(b, i + 2) == 0xA9)
  }

  predicate IsBlankzAt(b: Bytes, i: nat) {
    IsBlankAt(b, i) || IsBreakAt(b, i) || At(b, i) == 0
  }

  predicate IsAsciiAt(b: Bytes, i: nat) {
    At(b, i) <= 0x7F
  }

  predicate IsPrintableAt(b: Bytes, i: nat) {
    || At(b, i) == 0x0A
    || 0x20 <= At(b, i) <= 0x7E
    || (At(b, i) == 0xC2 && At(b, i + 1) >= 0xA0)
    || 0xC2 < At(b, i) < 0xED
    || (At(b, i) == 0xED && At(b, i + 1) < 0xA0)
    || At(b, i) == 0xEE
    || (At(b, i) == 0xEF && !(At(b, i + 1) == 0xBB && At(b, i + 2) == 0xBF)
        && !(At(b, i + 1) == 0xBF && (At(b, i + 2) == 0xBE || At(b, i + 2) == 0xBF)))
  }

  predicate IsHexAt(b: Bytes, i: nat) {
    0x30 <= At(b, i) <= 0x39 || 0x41 <= At(b, i) <= 0x46 || 0x61 <= At(b, i) <= 0x66
  }

  function AsHexAt(b: Bytes, i: nat): (d: nat)
    requires IsHexAt(b, i)
    ensures d < 16
  {
    if 0x41 <= b[i] <= 0x46 then b[i] - 0x41 + 10
    else if 0x61 <= b[i] <= 0x66 then b[i] - 0x61 + 10
    else b[i] - 0x30
  }

  /** is_bom looks at the beginning of the slice. */
  predicate IsBomAt(b: Bytes, i: nat) {
    At(b, 0) == 0xEF && At(b, 1) == 0xBB && At(b, 2) == 0xBF
  }

  function WidthAt(b: Bytes, i: nat): nat {
    if i < |b| then Utf8Width(b[i]) else 0
  }

  // ---------- positions ----------

  /** Byte i is where the k-th character of the text begins. */
  ghost predicate Begins(b: Bytes, text: string, i: nat, k: nat) {
    b == EncodeAll(text) && k <= |text| && i == |EncodeAll(text[..k])|
  }

  lemma Splits(text: string, k: nat)
    requires k <= |text|
    ensures EncodeAll(text) == EncodeAll(text[..k]) + EncodeAll(text[k..])
  {
    hide Encode, EncodeAll;
    assert text[..k] + text[k..] == text;
    EncodeConcat(text[..k], text[k..]);
  }

  lemma NextBegins(b: Bytes, text: string, i: nat, k: nat)
    requires Begins(b, text, i, k) && k < |text|
    ensures Begins(b, text, i + |Encode(text[k])|, k + 1)
    ensures i + |Encode(text[k])| <= |b| && b[i..i + |Encode(text[k])|] == Encode(text[k])
  {
    hide Encode;
    Splits(text, k);
    assert text[k..][0] == text[k] && text[k..][1..] == text[k + 1..];
    assert text[..k + 1] == text[..k] + [text[k]];
    EncodeConcat(text[..k], [text[k]]);
    EncodeOne(text[k]);
  }

  lemma EndBegins(b: Bytes, text: string, i: nat, k: nat)
    requires Begins(b, text, i, k)
    ensures i <= |b| && (k == |text| <==> i == |b|)
  {
    if k < |text| {
      NextBegins(b, text, i, k);
    } else {
      assert text[..k] == text;
    }
  }

  lemma StartBegins(text: string)
    ensures Begins(EncodeAll(text), text, 0, 0)
  {
    assert text[..0] == "";
  }

  /** The bytes of a character, one by one. */
  lemma Octets(b: Bytes, i: nat, e: Bytes)
    requires i + |e| <= |b| && b[i..i + |e|] == e
    ensures |e| > 0 ==> At(b, i) == e[0]
    ensures |e| > 1 ==> At(b, i + 1) == e[1]
    ensures |e| > 2 ==> At(b, i + 2) == e[2]
  {
    assert forall j :: 0 <= j < |e| ==> b[i + j] == e[j];
  }

  // ---------- the tests agree ----------

  predicate SameClasses(b: Bytes, i: nat, c: char) {
    && (IsBlankAt(b, i) <==> IsBlank(c))
    && (IsBreakAt(b, i) <==> IsBreak(c))
    && (IsBlankzAt(b, i) <==> IsBlankz(c))
    && (IsAsciiAt(b, i) <==> IsAscii(c))
    && (c as int <= 0x7F ==> At(b, i) == c as int)
    && (At(b, i) <= 0x7F ==> At(b, i) == c as int)
    && WidthAt(b, i) == |Encode(c)|
  }

  lemma AsciiClasses(b: Bytes, i: nat, c: char)
    requires c as int <= 0x7F && At(b, i) == c as int
    ensures SameClasses(b, i, c) && (IsPrintableAt(b, i) <==> IsPrintable(c))
  {
  }

  lemma TwoByteClasses(b: Bytes, i: nat, c: char)
    requires 0x7F < c as int <= 0x7FF && At(b, i) == Encode(c)[0] && At(b, i + 1) == Encode(c)[1]
    ensures SameClasses(b, i, c) && (IsPrintableAt(b, i) <==> IsPrintable(c))
  {
    var x := c as int;
    assert Encode(c)[0] == 0xC0 + x / 64 && Encode(c)[1] == 0x80 + x % 64;
  }

  lemma ThreeByteClasses(b: Bytes, i: nat, c: char)
    requires 0x7FF < c as int <= 0xFFFF
    requires At(b, i) == Encode(c)[0] && At(b, i + 1) == Encode(c)[1] && At(b, i + 2) == Encode(c)[2]
    ensures SameClasses(b, i, c) && (IsPrintableAt(b, i) <==> IsPrintable(c))
  {
    var x := c as int;
    assert Encode(c)[0] == 0xE0 + x / 4096 && Encode(c)[1] == 0x80 + x / 64 % 64 && Encode(c)[2] == 0x80 + x % 64;
  }

  lemma FourByteClasses(b: Bytes, i: nat, c: char)
    requires 0xFFFF < c as int && At(b, i) == Encode(c)[0]
    ensures SameClasses(b, i, c) && (IsPrintableAt(b, i) <==> IsPrintable(c))
  {
    var x := c as int;
    assert Encode(c)[0] == 0xF0 + x / 262144;
  }

  /** Where a character begins, every test gives what it gives for the character. */
  lemma ClassesAt(b: Bytes, text: string, i: nat, k: nat)
    requires Begins(b, text, i, k) && k < |text|
    ensures SameClasses(b, i, text[k]) && (IsPrintableAt(b, i) <==> IsPrintable(text[k]))
    ensures i < |b| && Begins(b, text, i + WidthAt(b, i), k + 1)
  {
    hide IsPrintableAt, IsPrintable, SameClasses;
    var c := text[k];
    NextBegins(b, text, i, k);
    Octets(b, i, Encode(c));
    if c as int <= 0x7F { AsciiClasses(b, i, c); }
    else if c as int <= 0x7FF { TwoByteClasses(b, i, c); }
    else if c as int <= 0xFFFF { ThreeByteClasses(b, i, c); }
    else { FourByteClasses(b, i, c); }
    WidthIs(b, i, c);
  }

  lemma WidthIs(b: Bytes, i: nat, c: char)
    requires SameClasses(b, i, c)
    ensures WidthAt(b, i) == |Encode(c)|
  {
  }
}
