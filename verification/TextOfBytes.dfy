/** The text that UTF-8 bytes stand for. */
module TextOfBytes {
  import opened Unicode
  import opened Decoding

  /** Stands for octets that are no character. */
  const REPLACEMENT: char := '\U{FFFD}'

  /** The first character, and the octets it takes. */
  function FirstOf(bs: seq<byte>): (char, nat)
    requires bs != []
    ensures 1 <= FirstOf(bs).1 <= |bs|
  {
    var width := Utf8Width(bs[0]);
    if width == 0 || width > |bs| then (REPLACEMENT, 1)
    else
      var value := Utf8Value(bs, width);
      var good := RightLength(value, width) && value <= 0x10FFFF && !(0xD800 <= value <= 0xDFFF);
      (if good then value as char else REPLACEMENT, width)
  }

  function TextOf(bs: seq<byte>): string {
    if bs == [] then "" else [FirstOf(bs).0] + TextOf(bs[FirstOf(bs).1..])
  }

  lemma FirstBack(c: char, more: seq<byte>)
    ensures FirstOf(Encode(c) + more) == (c, |Encode(c)|)
  {
    hide Encode, Utf8Value, RightLength;
    LeadOf(c);
    ValueBack(c);
    LengthBack(c);
    SameValue(Encode(c), more, |Encode(c)|);
  }

  lemma LengthBack(c: char)
    ensures RightLength(c as int, |Encode(c)|)
  {
  }

  /** Encoded text is that text, whatever follows. */
  lemma {:induction false} TextBack(v: string, more: seq<byte>)
    ensures TextOf(EncodeAll(v) + more) == v + TextOf(more)
  {
    hide Encode, FirstOf;
    if v == "" {
      assert EncodeAll(v) + more == more;
    } else {
      var rest := EncodeAll(v[1..]) + more;
      FirstBack(v[0], rest);
      TextBack(v[1..], more);
      assert EncodeAll(v) + more == Encode(v[0]) + rest;
      assert (Encode(v[0]) + rest)[|Encode(v[0])|..] == rest;
    }
  }

  lemma TextIs(v: string)
    ensures TextOf(EncodeAll(v)) == v
  {
    TextBack(v, []);
    assert EncodeAll(v) + [] == EncodeAll(v) && v + TextOf([]) == v;
  }

  // ---------- octets that may be no character ----------

  /** Leading octets, each with as many octets behind it as it announces. */
  predicate Whole(bs: seq<byte>)
    decreases |bs|
  {
    bs == [] || (var width := Utf8Width(bs[0]); 1 <= width <= |bs| && Whole(bs[width..]))
  }

  lemma {:induction false} WholeJoin(a: seq<byte>, b: seq<byte>)
    requires Whole(a)
    ensures TextOf(a + b) == TextOf(a) + TextOf(b) && (Whole(b) ==> Whole(a + b))
    decreases |a|
  {
    hide RightLength, FirstOf;
    if a == [] {
      assert a + b == b;
    } else {
      var width := Utf8Width(a[0]);
      SameFirst(a, b);
      Dropped(a, b, width);
      WholeJoin(a[width..], b);
      Grouped(FirstOf(a).0, TextOf(a[width..]), TextOf(b));
    }
  }

  lemma SameFirst(a: seq<byte>, b: seq<byte>)
    requires a != [] && Whole(a)
    ensures FirstOf(a + b) == FirstOf(a) && FirstOf(a).1 == Utf8Width(a[0])
  {
    SameValue(a, b, Utf8Width(a[0]));
  }

  lemma Dropped(a: seq<byte>, b: seq<byte>, width: nat)
    requires width <= |a|
    ensures (a + b)[width..] == a[width..] + b
  {
  }

  lemma Grouped(c: char, v: string, w: string)
    ensures [c] + (v + w) == [c] + v + w
  {
  }

  lemma {:induction false} EncodedWhole(v: string)
    ensures Whole(EncodeAll(v))
  {
    hide Encode;
    if v != "" {
      LeadOf(v[0]);
      EncodedWhole(v[1..]);
      assert EncodeAll(v)[0] == Encode(v[0])[0] && EncodeAll(v)[|Encode(v[0])|..] == EncodeAll(v[1..]);
    }
  }

  /** One leading octet and the octets it announces are one character, or stand in its place. */
  lemma OneWhole(bs: seq<byte>)
    requires bs != [] && Utf8Width(bs[0]) == |bs|
    ensures Whole(bs) && TextOf(bs) == [FirstOf(bs).0]
  {
    assert bs[|bs|..] == [];
  }
}
