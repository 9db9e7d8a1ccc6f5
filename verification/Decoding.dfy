/**
 What the reader makes of its input, told without its buffers: the encoding that the first
 bytes announce, one character at a time, and the whole input.
 */
module Decoding {
  import opened Options
  import opened Unicode

  datatype Encoding = Utf8 | Utf16LE | Utf16BE

  datatype ReadError =
    | InvalidLeadingOctet(octet: int)
    | IncompleteUtf8
    | InvalidTrailingOctet(octet: int)
    | InvalidLength
    | InvalidCharacter(value: int)
    | IncompleteUtf16
    | UnexpectedLowSurrogate(value: int)
    | IncompletePair
    | ExpectedLowSurrogate(value: int)
    | ControlCharacter(value: int)

  /** One character of the input; more bytes may complete one that is cut off. */
  datatype One = One(c: char, width: nat) | Partial(error: ReadError) | Bad(error: ReadError)

  const BOM8: seq<byte> := [0xEF, 0xBB, 0xBF]
  const BOM_LE: seq<byte> := [0xFF, 0xFE]
  const BOM_BE: seq<byte> := [0xFE, 0xFF]

  function Detect(bs: seq<byte>): (Encoding, nat) {
    if |bs| >= 2 && bs[0] == BOM_LE[0] && bs[1] == BOM_LE[1] then (Utf16LE, 2)
    else if |bs| >= 2 && bs[0] == BOM_BE[0] && bs[1] == BOM_BE[1] then (Utf16BE, 2)
    else if |bs| >= 3 && bs[0] == BOM8[0] && bs[1] == BOM8[1] && bs[2] == BOM8[2] then (Utf8, 3)
    else (Utf8, 0)
  }

  /** The characters that a YAML stream may hold. */
  predicate Readable(x: int) {
    || x == 0x09 || x == 0x0A || x == 0x0D || 0x20 <= x <= 0x7E || x == 0x85
    || 0xA0 <= x <= 0xD7FF || 0xE000 <= x <= 0xFFFD || 0x10000 <= x <= 0x10FFFF
  }

  function Checked(x: int, width: nat): One {
    if Readable(x) then One(x as char, width) else Bad(ControlCharacter(x))
  }

  // ---------- UTF-8 ----------

  /** The length a leading octet announces, or 0. */
  function Utf8Width(octet: byte): nat {
    if octet < 0x80 then 1
    else if octet / 32 == 6 then 2
    else if octet / 16 == 14 then 3
    else if octet / 8 == 30 then 4
    else 0
  }

  function LeadBits(octet: byte): nat {
    if octet < 0x80 then octet
    else if octet / 32 == 6 then octet % 32
    else if octet / 16 == 14 then octet % 16
    else octet % 8
  }

  predicate IsTrailing(octet: byte) {
    octet / 64 == 2
  }

  /** The value of the first k octets. */
  function Utf8Value(bs: seq<byte>, k: nat): nat
    requires 1 <= k <= |bs|
  {
    if k == 1 then LeadBits(bs[0]) else Utf8Value(bs, k - 1) * 64 + bs[k - 1] % 64
  }

  /** The first octet from k on, before the width, that is no trailing one; or the width. */
  function BadTrailing(bs: seq<byte>, k: nat, width: nat): (r: nat)
    requires k <= width <= |bs|
    ensures k <= r <= width
    decreases width - k
  {
    if k == width || !IsTrailing(bs[k]) then k else BadTrailing(bs, k + 1, width)
  }

  predicate RightLength(value: nat, width: nat) {
    width == 1 || (width == 2 && value >= 0x80) || (width == 3 && value >= 0x800) || (width == 4 && value >= 0x10000)
  }

  function DecodeUtf8(bs: seq<byte>): One
    requires bs != []
  {
    var width := Utf8Width(bs[0]);
    if width == 0 then Bad(InvalidLeadingOctet(bs[0]))
    else if width > |bs| then Partial(IncompleteUtf8)
    else
      var k := BadTrailing(bs, 1, width);
      if k < width then Bad(InvalidTrailingOctet(bs[k]))
      else CheckUtf8(Utf8Value(bs, width), width)
  }

  function CheckUtf8(value: nat, width: nat): One {
    if !RightLength(value, width) then Bad(InvalidLength)
    else if 0xD800 <= value <= 0xDFFF || value > 0x10FFFF then Bad(InvalidCharacter(value))
    else Checked(value, width)
  }

  // ---------- UTF-16 ----------

  function UnitAt(bs: seq<byte>, k: nat, big: bool): (x: nat)
    requires k + 2 <= |bs|
    ensures x < 0x1_0000
  {
    if big then bs[k] as int * 256 + bs[k + 1] as int else bs[k] as int + bs[k + 1] as int * 256
  }

  function DecodeUtf16(bs: seq<byte>, big: bool): One
    requires bs != []
  {
    if |bs| < 2 then Partial(IncompleteUtf16)
    else
      var value := UnitAt(bs, 0, big);
      if value / 1024 == 0x37 then Bad(UnexpectedLowSurrogate(value))
      else if value / 1024 != 0x36 then Checked(value, 2)
      else if |bs| < 4 then Partial(IncompletePair)
      else
        var value2 := UnitAt(bs, 2, big);
        if value2 / 1024 != 0x37 then Bad(ExpectedLowSurrogate(value2))
        else Checked(0x10000 + value % 1024 * 1024 + value2 % 1024, 4)
  }

  function DecodeOne(enc: Encoding, bs: seq<byte>): One
    requires bs != []
  {
    match enc
    case Utf8 => DecodeUtf8(bs)
    case Utf16LE => DecodeUtf16(bs, false)
    case Utf16BE => DecodeUtf16(bs, true)
  }

  // ---------- the whole input ----------

  datatype Decoded = Decoded(text: string, end: Option<ReadError>)

  /** The characters up to the first error, if there is one. */
  function DecodeAll(enc: Encoding, bs: seq<byte>): Decoded
    decreases |bs|
  {
    if bs == [] then Decoded("", None)
    else
      match DecodeOne(enc, bs)
      case Partial(e) => Decoded("", Some(e))
      case Bad(e) => Decoded("", Some(e))
      case One(c, width) =>
        OneWidth(enc, bs);
        var rest := DecodeAll(enc, bs[width..]);
        Decoded([c] + rest.text, rest.end)
  }

  function DecodeStream(bs: seq<byte>): Decoded {
    var (enc, skip) := Detect(bs);
    DecodeAll(enc, bs[skip..])
  }

  lemma OneWidth(enc: Encoding, bs: seq<byte>)
    requires bs != []
    ensures var o := DecodeOne(enc, bs);
      o.One? ==> 1 <= o.width <= |bs| && |Encode(o.c)| * 2 <= o.width * 3
    ensures DecodeOne(enc, bs).Partial? ==> |bs| < 4
  {
    hide DecodeUtf8, DecodeUtf16, Encode;
    match enc
    case Utf8 => OneWidth8(bs);
    case Utf16LE => OneWidth16(bs, false);
    case Utf16BE => OneWidth16(bs, true);
  }

  lemma OneWidth8(bs: seq<byte>)
    requires bs != []
    ensures var o := DecodeUtf8(bs); o.One? ==> 1 <= o.width <= |bs| && |Encode(o.c)| <= o.width
    ensures DecodeUtf8(bs).Partial? ==> |bs| < 4
  {
    hide Utf8Value, BadTrailing, Readable, Encode, RightLength;
    if DecodeUtf8(bs).One? { Utf8Identity(bs); }
  }

  lemma OctetsOf(value: nat)
    requires value <= 0x10FFFF && !(0xD800 <= value <= 0xDFFF)
    ensures |Encode(value as char)| <= if value < 0x10000 then 3 else 4
  {
  }

  lemma OneWidth16(bs: seq<byte>, big: bool)
    requires bs != []
    ensures var o := DecodeUtf16(bs, big);
      o.One? ==> 1 <= o.width <= |bs| && (o.width == 2 || o.width == 4) && |Encode(o.c)| * 2 <= o.width * 3
    ensures DecodeUtf16(bs, big).Partial? ==> |bs| < 4
  {
    hide Readable, Encode;
    if |bs| >= 2 {
      var value := UnitAt(bs, 0, big);
      if !(0xD800 <= value <= 0xDFFF) { OctetsOf(value); }
    }
  }

  /** More bytes behind change nothing once a character, or an error, is seen. */
  lemma MoreBytes(enc: Encoding, bs: seq<byte>, more: seq<byte>)
    requires bs != [] && !DecodeOne(enc, bs).Partial?
    ensures DecodeOne(enc, bs + more) == DecodeOne(enc, bs)
  {
    assert (bs + more)[0] == bs[0];
    if enc == Utf8 {
      var w := Utf8Width(bs[0]);
      if 1 <= w <= |bs| {
        SameTrailing(bs, more, 1, w);
        SameValue(bs, more, w);
      }
    } else if |bs| >= 2 {
      assert (bs + more)[1] == bs[1];
      if |bs| >= 4 { assert (bs + more)[2] == bs[2] && (bs + more)[3] == bs[3]; }
    }
  }

  lemma {:induction false} SameTrailing(bs: seq<byte>, more: seq<byte>, k: nat, width: nat)
    requires k <= width <= |bs|
    ensures BadTrailing(bs + more, k, width) == BadTrailing(bs, k, width)
    decreases width - k
  {
    if k < width && IsTrailing(bs[k]) { SameTrailing(bs, more, k + 1, width); }
  }

  lemma {:induction false} SameValue(bs: seq<byte>, more: seq<byte>, k: nat)
    requires 1 <= k <= |bs|
    ensures Utf8Value(bs + more, k) == Utf8Value(bs, k)
  {
    if k > 1 { SameValue(bs, more, k - 1); }
  }

  // ---------- what comes through ----------

  lemma {:induction false} TrailingAll(bs: seq<byte>, k: nat, width: nat)
    requires k <= width <= |bs| && BadTrailing(bs, k, width) == width
    ensures forall j :: k <= j < width ==> IsTrailing(bs[j])
    decreases width - k
  {
    if k < width { TrailingAll(bs, k + 1, width); }
  }

  lemma TwoOctets(a: byte, b: byte, x: nat)
    requires a / 32 == 6 && IsTrailing(b) && x == (a as int % 32) * 64 + b as int % 64
    requires x >= 0x80
    ensures Encode(x as char) == [a, b]
  {
  }

  lemma ThreeOctets(a: byte, b: byte, c: byte, x: nat)
    requires a / 16 == 14 && IsTrailing(b) && IsTrailing(c)
    requires x == ((a as int % 16) * 64 + b as int % 64) * 64 + c as int % 64
    requires x >= 0x800 && !(0xD800 <= x <= 0xDFFF)
    ensures Encode(x as char) == [a, b, c]
  {
    assert a == 0xE0 + x / 4096 && b == 0x80 + x / 64 % 64 && c == 0x80 + x % 64;
  }

  lemma FourOctets(a: byte, b: byte, c: byte, d: byte, x: nat)
    requires a / 8 == 30 && IsTrailing(b) && IsTrailing(c) && IsTrailing(d)
    requires x == (((a as int % 8) * 64 + b as int % 64) * 64 + c as int % 64) * 64 + d as int % 64
    requires 0x10000 <= x <= 0x10FFFF
    ensures Encode(x as char) == [a, b, c, d]
  {
    var top: int := (a as int % 8) * 64 + b as int % 64;
    LowDigits(top * 64 + c as int % 64, d as int % 64, x);
    LowDigits(top, c as int % 64, x / 64);
    LowDigits(a as int % 8, b as int % 64, top);
    assert x / 4096 == x / 64 / 64 && x / 262144 == x / 64 / 64 / 64;
  }

  /** The last digit to the base 64, and the others. */
  lemma LowDigits(high: nat, low: nat, x: nat)
    requires low < 64 && x == high * 64 + low
    ensures x / 64 == high && x % 64 == low
  {
  }

  /** An accepted UTF-8 character is written in its one right form. */
  lemma Utf8Identity(bs: seq<byte>)
    requires bs != [] && DecodeUtf8(bs).One?
    ensures var o := DecodeUtf8(bs); 1 <= o.width <= |bs| && bs[..o.width] == Encode(o.c) && Readable(o.c as int)
  {
    hide Encode;
    var w := Utf8Width(bs[0]);
    TrailingAll(bs, 1, w);
    ValueOfTwo(bs, w);
    if w == 1 {
      OneOctet(bs[0]);
      assert bs[..1] == [bs[0]];
    } else if w == 2 {
      TwoOctets(bs[0], bs[1], Utf8Value(bs, 2));
      assert bs[..2] == [bs[0], bs[1]];
    } else if w == 3 {
      ThreeOctets(bs[0], bs[1], bs[2], Utf8Value(bs, 3));
      assert bs[..3] == [bs[0], bs[1], bs[2]];
    } else {
      FourOctets(bs[0], bs[1], bs[2], bs[3], Utf8Value(bs, 4));
      assert bs[..4] == [bs[0], bs[1], bs[2], bs[3]];
    }
  }

  lemma OneOctet(a: byte)
    requires a < 0x80
    ensures Encode(a as char) == [a]
  {
  }

  lemma ValueOfTwo(bs: seq<byte>, w: nat)
    requires 1 <= w <= |bs|
    ensures Utf8Value(bs, 1) == LeadBits(bs[0])
    ensures w >= 2 ==> Utf8Value(bs, 2) == LeadBits(bs[0]) * 64 + bs[1] as int % 64
    ensures w >= 3 ==> Utf8Value(bs, 3) == Utf8Value(bs, 2) * 64 + bs[2] as int % 64
    ensures w >= 4 ==> Utf8Value(bs, 4) == Utf8Value(bs, 3) * 64 + bs[3] as int % 64
  {
  }

  /** And every readable character is accepted, whatever follows. */
  lemma Utf8Accepted(c: char, more: seq<byte>)
    requires Readable(c as int)
    ensures DecodeUtf8(Encode(c) + more) == One(c, |Encode(c)|)
  {
    EncodedDecodes(c);
    MoreBytes(Utf8, Encode(c), more);
  }

  lemma EncodedDecodes(c: char)
    requires Readable(c as int)
    ensures DecodeUtf8(Encode(c)) == One(c, |Encode(c)|)
  {
    hide CheckUtf8, Utf8Value, BadTrailing, Encode;
    LeadOf(c);
    AllTrailing(c);
    ValueBack(c);
    CheckedOk(c, |Encode(c)|);
  }

  lemma ValueBack(c: char)
    ensures Utf8Value(Encode(c), |Encode(c)|) == c as int
  {
    hide Encode;
    var bs, x := Encode(c), c as int;
    ValueOfTwo(bs, |bs|);
    if x <= 0x7F { EncodedAs1(c); }
    else if x <= 0x7FF { EncodedAs2(c); }
    else if x <= 0xFFFF { EncodedAs3(c); }
    else { EncodedAs4(c); }
  }

  lemma EncodedAs1(c: char)
    requires c as int <= 0x7F
    ensures Encode(c) == [c as int] && LeadBits(c as int) == c as int
  {
  }

  lemma EncodedAs2(c: char)
    requires 0x7F < c as int <= 0x7FF
    ensures var s := Encode(c); |s| == 2 && LeadBits(s[0]) * 64 + s[1] as int % 64 == c as int
  {
  }

  lemma EncodedAs3(c: char)
    requires 0x7FF < c as int <= 0xFFFF
    ensures var s := Encode(c);
      |s| == 3 && (LeadBits(s[0]) * 64 + s[1] as int % 64) * 64 + s[2] as int % 64 == c as int
  {
    var x := c as int;
    assert x == (x / 4096 * 64 + x / 64 % 64) * 64 + x % 64;
  }

  lemma EncodedAs4(c: char)
    requires 0xFFFF < c as int
    ensures var s := Encode(c);
      |s| == 4 && ((LeadBits(s[0]) * 64 + s[1] as int % 64) * 64 + s[2] as int % 64) * 64 + s[3] as int % 64 == c as int
  {
    hide LeadBits;
    var x := c as int;
    HighDigits(x);
    HighDigits(x / 64);
    HighDigits(x / 64 / 64);
    LeadOfFour(x / 262144);
    Trail(x / 4096 % 64);
    Trail(x / 64 % 64);
    Trail(x % 64);
  }

  lemma LeadOfFour(y: nat)
    requires y <= 4
    ensures LeadBits(0xF0 + y) == y
  {
  }

  lemma Trail(y: nat)
    requires y < 64
    ensures (0x80 + y) % 64 == y
  {
  }

  lemma HighDigits(x: nat)
    ensures x == x / 64 * 64 + x % 64 && x / 64 / 64 == x / 4096 && x / 4096 / 64 == x / 262144
  {
  }

  lemma LeadOf(c: char)
    ensures var bs := Encode(c); Utf8Width(bs[0]) == |bs|
  {
  }

  lemma AllTrailing(c: char)
    ensures var bs := Encode(c); BadTrailing(bs, 1, |bs|) == |bs|
  {
    var bs := Encode(c);
    assert forall k :: 1 <= k < |bs| ==> IsTrailing(bs[k]);
    NoneBad(bs, 1, |bs|);
  }

  lemma {:induction false} NoneBad(bs: seq<byte>, k: nat, width: nat)
    requires k <= width <= |bs| && forall j :: k <= j < width ==> IsTrailing(bs[j])
    ensures BadTrailing(bs, k, width) == width
    decreases width - k
  {
    if k < width { NoneBad(bs, k + 1, width); }
  }

  lemma CheckedOk(c: char, w: nat)
    requires Readable(c as int) && w == |Encode(c)|
    ensures CheckUtf8(c as int, w) == One(c, w)
  {
  }

  // ---------- UTF-16 ----------

  lemma Units(x: nat, big: bool)
    requires x < 0x1_0000
    ensures UnitAt(Unit(x, big), 0, big) == x
  {
  }

  /** A character written in UTF-16 is read back, whatever follows. */
  lemma Utf16Accepted(c: char, big: bool, more: seq<byte>)
    requires Readable(c as int)
    ensures DecodeUtf16(Encode16(c, big) + more, big) == One(c, |Encode16(c, big)|)
  {
    var x := c as int;
    var bs := Encode16(c, big) + more;
    if x < 0x1_0000 {
      Units(x, big);
      assert UnitAt(bs, 0, big) == x;
      assert x / 1024 != 0x36 && x / 1024 != 0x37;
    } else {
      var hi, lo := 0xD800 + (x - 0x1_0000) / 1024, 0xDC00 + (x - 0x1_0000) % 1024;
      Units(hi, big);
      Units(lo, big);
      assert UnitAt(bs, 0, big) == hi && UnitAt(bs, 2, big) == lo;
      SurrogateValue(x - 0x1_0000);
    }
  }

  lemma SurrogateValue(y: nat)
    requires y < 0x10_0000
    ensures (0xD800 + y / 1024) / 1024 == 0x36 && (0xDC00 + y % 1024) / 1024 == 0x37
    ensures (0xD800 + y / 1024) % 1024 * 1024 + (0xDC00 + y % 1024) % 1024 == y
  {
  }

  /** And an accepted character was written so. */
  lemma Utf16Identity(bs: seq<byte>, big: bool)
    requires bs != [] && DecodeUtf16(bs, big).One?
    ensures var o := DecodeUtf16(bs, big);
      o.width <= |bs| && bs[..o.width] == Encode16(o.c, big) && Readable(o.c as int)
  {
    var hi := UnitAt(bs, 0, big);
    UnitBytes(bs, 0, big);
    if hi / 1024 == 0x36 {
      var lo := UnitAt(bs, 2, big);
      UnitBytes(bs, 2, big);
      SurrogateBack(hi, lo);
      assert bs[..4] == bs[..2] + bs[2..4];
    }
  }

  lemma UnitBytes(bs: seq<byte>, k: nat, big: bool)
    requires k + 2 <= |bs|
    ensures bs[k..k + 2] == Unit(UnitAt(bs, k, big), big)
  {
    assert bs[k..k + 2] == [bs[k], bs[k + 1]];
  }

  lemma SurrogateBack(hi: nat, lo: nat)
    requires hi / 1024 == 0x36 && lo / 1024 == 0x37
    ensures var y := hi % 1024 * 1024 + lo % 1024;
      0xD800 + y / 1024 == hi && 0xDC00 + y % 1024 == lo && y < 0x10_0000
  {
  }

  // ---------- whole inputs ----------

  predicate AllReadable(s: string) {
    forall i :: 0 <= i < |s| ==> Readable(s[i] as int)
  }

  function EncodeIn(enc: Encoding, s: string): seq<byte> {
    match enc
    case Utf8 => EncodeAll(s)
    case Utf16LE => EncodeAll16(s, false)
    case Utf16BE => EncodeAll16(s, true)
  }

  /** Readable text in any of the encodings is decoded to itself. */
  lemma {:induction false} TextDecoded(enc: Encoding, s: string)
    requires AllReadable(s)
    ensures DecodeAll(enc, EncodeIn(enc, s)) == Decoded(s, None)
    decreases |s|
  {
    hide DecodeOne, Encode, Encode16, Readable;
    if s != "" {
      var first, rest := OctetsIn(enc, s[0]), EncodeIn(enc, s[1..]);
      TextDecoded(enc, s[1..]);
      OneAccepted(enc, s[0], rest);
      BehindFirst(first, rest);
      assert EncodeIn(enc, s) == first + rest;
    }
  }

  function OctetsIn(enc: Encoding, c: char): seq<byte> {
    match enc
    case Utf8 => Encode(c)
    case _ => Encode16(c, enc == Utf16BE)
  }

  lemma OneAccepted(enc: Encoding, c: char, rest: seq<byte>)
    requires Readable(c as int)
    ensures OctetsIn(enc, c) != []
    ensures DecodeOne(enc, OctetsIn(enc, c) + rest) == One(c, |OctetsIn(enc, c)|)
  {
    hide DecodeUtf8, DecodeUtf16, Readable;
    match enc
    case Utf8 => Utf8Accepted(c, rest);
    case _ => Utf16Accepted(c, enc == Utf16BE, rest);
  }

  lemma BehindFirst(first: seq<byte>, rest: seq<byte>)
    ensures (first + rest)[|first|..] == rest
  {
  }

  lemma NothingEncoded(enc: Encoding)
    ensures EncodeIn(enc, "") == []
  {
  }

  lemma EncodeInFirst(enc: Encoding, c: char, s: string)
    ensures EncodeIn(enc, [c] + s) == EncodeIn(enc, [c]) + EncodeIn(enc, s)
    ensures EncodeIn(enc, [c]) == match enc { case Utf8 => Encode(c) case _ => Encode16(c, enc == Utf16BE) }
  {
    var one := [c];
    assert (one + s)[0] == c && (one + s)[1..] == s;
    assert one[0] == c && one[1..] == "";
    NothingEncoded(enc);
  }

  /** Input accepted to its end is the encoding of what was read from it, byte for byte. */
  lemma {:induction false} AcceptedIsEncoded(enc: Encoding, bs: seq<byte>)
    requires DecodeAll(enc, bs).end == None
    ensures EncodeIn(enc, DecodeAll(enc, bs).text) == bs && AllReadable(DecodeAll(enc, bs).text)
    decreases |bs|
  {
    hide DecodeOne, EncodeIn;
    if bs != [] {
      OneWidth(enc, bs);
      var o := DecodeOne(enc, bs);
      FirstIsEncoded(enc, bs);
      AcceptedIsEncoded(enc, bs[o.width..]);
      EncodeInFirst(enc, o.c, DecodeAll(enc, bs[o.width..]).text);
      assert bs == bs[..o.width] + bs[o.width..];
    } else {
      NothingEncoded(enc);
    }
  }

  lemma FirstIsEncoded(enc: Encoding, bs: seq<byte>)
    requires bs != [] && DecodeOne(enc, bs).One?
    ensures var o := DecodeOne(enc, bs);
      o.width <= |bs| && bs[..o.width] == EncodeIn(enc, [o.c]) && Readable(o.c as int)
  {
    hide DecodeUtf8, DecodeUtf16, Readable;
    var o := DecodeOne(enc, bs);
    EncodeInFirst(enc, o.c, "");
    if enc == Utf8 { Utf8Identity(bs); } else { Utf16Identity(bs, enc == Utf16BE); }
  }

  /** Only a byte order mark is taken for one. */
  lemma NoMark(s: string)
    requires s == "" || s[0] != '\U{FEFF}'
    ensures Detect(EncodeAll(s)) == (Utf8, 0)
  {
    if s != "" {
      var bs := Encode(s[0]);
      LeadOf(s[0]);
      MarkIsFEFF(s[0]);
      assert EncodeAll(s)[0] == bs[0];
      if bs[0] == BOM8[0] {
        assert |bs| == 3;
        assert EncodeAll(s)[1] == bs[1] && EncodeAll(s)[2] == bs[2];
        assert bs == [bs[0], bs[1], bs[2]];
      }
    }
  }

  lemma MarkIsFEFF(c: char)
    ensures var bs := Encode(c); |bs| == 3 && bs == BOM8 ==> c == '\U{FEFF}'
  {
    ValueBack(c);
    var bs := Encode(c);
    if bs == BOM8 { ValueOfTwo(bs, 3); }
  }

  /** The text with a byte order mark, which is U+FEFF (section 3.2 of RFC 2781), in front of it. */
  function Marked(s: string): string {
    ['\U{FEFF}'] + s
  }

  /** The mark's own encoding tells which one it is. */
  lemma MarkDetected(enc: Encoding, more: seq<byte>)
    ensures Detect(OctetsIn(enc, '\U{FEFF}') + more) == (enc, |OctetsIn(enc, '\U{FEFF}')|)
  {
    var c := '\U{FEFF}';
    assert c as int == 0xFEFF;
    match enc
    case Utf8 => assert Encode(c) == [0xEF, 0xBB, 0xBF];
    case Utf16LE => assert Encode16(c, false) == [0xFF, 0xFE];
    case Utf16BE => assert Encode16(c, true) == [0xFE, 0xFF];
  }

  lemma MarkInFront(enc: Encoding, s: string)
    ensures EncodeIn(enc, Marked(s)) == OctetsIn(enc, '\U{FEFF}') + EncodeIn(enc, s)
  {
    hide EncodeIn, Encode, Encode16;
    EncodeInFirst(enc, '\U{FEFF}', s);
  }

  /**
   The reader's meaning: after a byte order mark, text in UTF-8 or in either byte order of UTF-16
   comes through as the same characters, without the mark; without one, UTF-8 text does.
   */
  lemma StreamsDecoded(enc: Encoding, s: string)
    requires AllReadable(s)
    ensures DecodeStream(EncodeIn(enc, Marked(s))) == Decoded(s, None)
    ensures s == "" || s[0] != '\U{FEFF}' ==> DecodeStream(EncodeAll(s)) == Decoded(s, None)
  {
    hide Detect, DecodeAll, EncodeIn, EncodeAll, OctetsIn;
    MarkInFront(enc, s);
    MarkDetected(enc, EncodeIn(enc, s));
    BehindFirst(OctetsIn(enc, '\U{FEFF}'), EncodeIn(enc, s));
    TextDecoded(enc, s);
    if s == "" || s[0] != '\U{FEFF}' { Unmarked(s); }
  }

  lemma Unmarked(s: string)
    requires AllReadable(s) && (s == "" || s[0] != '\U{FEFF}')
    ensures DecodeStream(EncodeAll(s)) == Decoded(s, None)
  {
    hide Detect, DecodeAll, EncodeAll;
    NoMark(s);
    TextDecoded(Utf8, s);
    InUtf8(s);
    assert EncodeAll(s)[0..] == EncodeAll(s);
  }

  /** And nothing else comes through: such input is all that is read as s without an error. */
  lemma DecodedJust(bs: seq<byte>, s: string)
    ensures DecodeStream(bs) == Decoded(s, None) <==>
      AllReadable(s) && ((exists enc :: bs == EncodeIn(enc, Marked(s)))
                         || (bs == EncodeAll(s) && (s == "" || s[0] != '\U{FEFF}')))
  {
    hide DecodeAll, EncodeIn, EncodeAll, Readable;
    if AllReadable(s) {
      if enc :| bs == EncodeIn(enc, Marked(s)) { StreamsDecoded(enc, s); }
      if bs == EncodeAll(s) && (s == "" || s[0] != '\U{FEFF}') { Unmarked(s); }
    }
    if DecodeStream(bs) == Decoded(s, None) {
      var (enc, skip) := Detect(bs);
      AcceptedIsEncoded(enc, bs[skip..]);
      if skip > 0 {
        MarkBytes(bs);
        MarkInFront(enc, s);
        assert bs == bs[..skip] + bs[skip..];
      } else {
        assert bs[0..] == bs && EncodeIn(Utf8, s) == EncodeAll(s) by { InUtf8(s); }
        if s != "" && s[0] == '\U{FEFF}' { FirstIsMark(s); }
      }
    }
  }

  /** Control characters but TAB, LF, CR and NEL, and the two non-characters of the first plane. */
  predicate Control(c: char) {
    || (c < ' ' && c !in "\t\n\r")
    || ('\U{7F}' <= c <= '\U{9F}' && c != '\U{85}')
    || c == '\U{FFFE}' || c == '\U{FFFF}'
  }

  lemma ReadableJust(c: char)
    ensures Readable(c as int) <==> !Control(c)
  {
  }

  /** Text behind a mark is read as itself if and only if there is no control character in it. */
  lemma ControlsRefused(enc: Encoding, s: string)
    ensures DecodeStream(EncodeIn(enc, Marked(s))) == Decoded(s, None) <==> forall i :: 0 <= i < |s| ==> !Control(s[i])
  {
    hide DecodeStream, EncodeIn, Readable, Control;
    forall i | 0 <= i < |s| ensures Readable(s[i] as int) <==> !Control(s[i]) { ReadableJust(s[i]); }
    if AllReadable(s) { StreamsDecoded(enc, s); }
    DecodedJust(EncodeIn(enc, Marked(s)), s);
  }

  lemma InUtf8(s: string)
    ensures EncodeIn(Utf8, s) == EncodeAll(s)
  {
  }

  lemma MarkBytes(bs: seq<byte>)
    requires Detect(bs).1 > 0
    ensures var (enc, skip) := Detect(bs); skip <= |bs| && bs[..skip] == OctetsIn(enc, '\U{FEFF}')
  {
    var c := '\U{FEFF}';
    assert Encode(c) == [0xEF, 0xBB, 0xBF] && Encode16(c, false) == [0xFF, 0xFE] && Encode16(c, true) == [0xFE, 0xFF];
  }

  lemma FirstIsMark(s: string)
    requires s != "" && s[0] == '\U{FEFF}'
    ensures Detect(EncodeAll(s)) == (Utf8, 3)
  {
    hide Detect;
    assert EncodeAll(s) == OctetsIn(Utf8, s[0]) + EncodeAll(s[1..]);
    MarkDetected(Utf8, EncodeAll(s[1..]));
    assert |Encode('\U{FEFF}')| == 3;
  }
}
