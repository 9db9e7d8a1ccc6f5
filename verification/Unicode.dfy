/** UTF-8 (RFC 3629, section 3) and UTF-16 (RFC 2781, section 2.1) forms of text. */
module Unicode {
  type byte = b: int | 0 <= b < 256

  /** The UTF-8 bytes of one character. */
  function Encode(c: char): (s: seq<byte>)
    ensures 1 <= |s| <= 4
  {
    var x := c as int;
    if x <= 0x7F then [x]
    else if x <= 0x7FF then [0xC0 + x / 64, 0x80 + x % 64]
    else if x <= 0xFFFF then [0xE0 + x / 4096, 0x80 + x / 64 % 64, 0x80 + x % 64]
    else [0xF0 + x / 262144, 0x80 + x / 4096 % 64, 0x80 + x / 64 % 64, 0x80 + x % 64]
  }

  function EncodeAll(s: string): seq<byte> {
    if s == "" then [] else Encode(s[0]) + EncodeAll(s[1..])
  }

  function EncodedLength(s: string): (n: nat)
    ensures n == |EncodeAll(s)|
  {
    if s == "" then 0 else |Encode(s[0])| + EncodedLength(s[1..])
  }

  lemma {:induction false} EncodeConcat(a: string, b: string)
    ensures EncodeAll(a + b) == EncodeAll(a) + EncodeAll(b)
  {
    if a == "" {
      assert a + b == b;
    } else {
      assert (a + b)[1..] == a[1..] + b;
      EncodeConcat(a[1..], b);
    }
  }

  lemma EncodeOne(c: char)
    ensures EncodeAll([c]) == Encode(c)
  {
    assert [c][1..] == "";
  }

  lemma {:induction false} EncodedSize(s: string)
    ensures |s| <= |EncodeAll(s)| <= 4 * |s|
  {
    if s != "" { EncodedSize(s[1..]); }
  }

  /** The 16-bit units of one character, high byte first or last. */
  function Unit(x: nat, big: bool): seq<byte>
    requires x < 0x1_0000
  {
    if big then [x / 256, x % 256] else [x % 256, x / 256]
  }

  function Encode16(c: char, big: bool): (s: seq<byte>)
    ensures |s| == if c as int < 0x1_0000 then 2 else 4
  {
    var x := c as int;
    if x < 0x1_0000 then Unit(x, big)
    else Unit(0xD800 + (x - 0x1_0000) / 1024, big) + Unit(0xDC00 + (x - 0x1_0000) % 1024, big)
  }

  function EncodeAll16(s: string, big: bool): seq<byte> {
    if s == "" then [] else Encode16(s[0], big) + EncodeAll16(s[1..], big)
  }
}
