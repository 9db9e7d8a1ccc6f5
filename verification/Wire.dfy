/** The wire format of Protocol Buffers, as far as the directive messages need it. */
module Wire {
  import opened Options
  import opened Unicode

  datatype WireError =
    | UnexpectedEOF
    | IntOverflow
    | InvalidLength
    | EndGroup
    | IllegalTag(field: int)
    | WrongWireType(wireType: int)
    | IllegalWireType(wireType: int)

  const TWO_32: nat := 0x1_0000_0000
  const TWO_63: nat := 0x8000_0000_0000_0000
  const TWO_64: nat := 0x1_0000_0000_0000_0000

  // ---------- varints ("Base 128 Varints") ----------

  /** Seven bits a byte, the low ones first; the high bit says that more follow. */
  function Varint(v: nat): (s: seq<byte>)
    ensures s != []
  {
    if v < 128 then [v] else [128 + v % 128] + Varint(v / 128)
  }

  function SizeOfVarint(v: nat): (n: nat)
    ensures n == |Varint(v)|
  {
    if v < 128 then 1 else 1 + SizeOfVarint(v / 128)
  }

  datatype Number = Number(value: nat, end: nat)

  /** The varint at i, after k bytes of it; no more than ten are read. */
  function VarintAt(bs: seq<byte>, i: nat, k: nat): Result<Number, WireError>
    decreases 10 - k
  {
    if k >= 10 then Err(IntOverflow)
    else if i >= |bs| then Err(UnexpectedEOF)
    else if bs[i] < 128 then Ok(Number(bs[i], i + 1))
    else
      match VarintAt(bs, i + 1, k + 1)
      case Err(e) => Err(e)
      case Ok(Number(v, end)) => Ok(Number(bs[i] as int - 128 + 128 * v, end))
  }

  /** In 64 bits; what does not fit is lost. */
  function DecodeVarint(bs: seq<byte>, i: nat): Result<Number, WireError> {
    match VarintAt(bs, i, 0)
    case Err(e) => Err(e)
    case Ok(Number(v, end)) => Ok(Number(v % TWO_64, end))
  }

  lemma {:induction false} VarintEnds(bs: seq<byte>, i: nat, k: nat)
    ensures var r := VarintAt(bs, i, k); r.Ok? ==> i < r.value.end <= |bs|
    decreases 10 - k
  {
    if k < 10 && i < |bs| && bs[i] >= 128 { VarintEnds(bs, i + 1, k + 1); }
  }

  function Pow128(n: nat): (p: nat)
    ensures p >= 1
  {
    if n == 0 then 1 else 128 * Pow128(n - 1)
  }

  lemma {:induction false} VarintSize(v: nat, n: nat)
    requires n >= 1 && v < Pow128(n)
    ensures |Varint(v)| <= n
  {
    if v >= 128 { VarintSize(v / 128, n - 1); }
  }

  lemma {:induction false} VarintBack(a: seq<byte>, v: nat, b: seq<byte>, k: nat)
    requires k + |Varint(v)| <= 10
    ensures VarintAt(a + Varint(v) + b, |a|, k) == Ok(Number(v, |a| + |Varint(v)|))
    decreases v
  {
    var bs := a + Varint(v) + b;
    if v < 128 {
      assert bs[|a|] == v;
    } else {
      assert bs[|a|] == 128 + v % 128;
      assert bs == a + [128 + v % 128] + Varint(v / 128) + b;
      VarintBack(a + [128 + v % 128], v / 128, b, k + 1);
    }
  }

  /** A length that Go's int can hold is read back. */
  lemma VarintRoundTrip(v: nat, rest: seq<byte>)
    requires v < TWO_63
    ensures DecodeVarint(Varint(v) + rest, 0) == Ok(Number(v, |Varint(v)|))
  {
    TenBytes();
    VarintSize(v, 10);
    VarintBack([], v, rest, 0);
    assert [] + Varint(v) + rest == Varint(v) + rest;
  }

  lemma TenBytes()
    ensures Pow128(10) >= TWO_64
  {
    assert Pow128(1) == 128;
    assert Pow128(2) == 16384;
    assert Pow128(3) == 2097152;
    assert Pow128(4) == 268435456;
    assert Pow128(5) == 34359738368;
    assert Pow128(6) == 4398046511104;
    assert Pow128(7) == 562949953421312;
    assert Pow128(8) == 72057594037927936;
    assert Pow128(9) == 9223372036854775808;
  }

  // ---------- records ----------

  /** A length-delimited field whose tag takes one byte. */
  function Field(tag: byte, payload: seq<byte>): seq<byte> {
    [tag] + Varint(|payload|) + payload
  }

  function ToInt32(x: nat): int {
    var y := x % TWO_32;
    if y < TWO_32 / 2 then y else y - TWO_32
  }

  datatype Tag = Tag(field: int, wireType: int, end: nat)

  /** The tag at the beginning; an end-group and a field number that is not positive are errors. */
  function ReadTag(bs: seq<byte>): Result<Tag, WireError> {
    match DecodeVarint(bs, 0)
    case Err(e) => Err(e)
    case Ok(Number(wire, end)) =>
      var field := ToInt32(wire / 8);
      if wire % 8 == 4 then Err(EndGroup)
      else if field <= 0 then Err(IllegalTag(field))
      else Ok(Tag(field, wire % 8, end))
  }

  datatype Payload = Payload(start: nat, end: nat)

  /** Where the bytes of a length-delimited field are, its length being at i. */
  function ReadPayload(bs: seq<byte>, i: nat, wireType: int): Result<Payload, WireError> {
    if wireType != 2 then Err(WrongWireType(wireType))
    else
      match DecodeVarint(bs, i)
      case Err(e) => Err(e)
      case Ok(Number(n, start)) =>
        if n >= TWO_63 || start + n >= TWO_63 then Err(InvalidLength)
        else if start + n > |bs| then Err(UnexpectedEOF)
        else Ok(Payload(start, start + n))
  }

  /** Passes one record of whatever type, with the groups it opens. */
  function Skip(bs: seq<byte>, i: nat, depth: nat): (r: Result<nat, WireError>)
    ensures r.Ok? ==> r.value > i
    decreases |bs| - i
  {
    if i >= |bs| then Err(UnexpectedEOF)
    else
      match DecodeVarint(bs, i)
      case Err(e) => Err(e)
      case Ok(Number(wire, start)) =>
        VarintEnds(bs, i, 0);
        match SkipValue(bs, start, wire % 8, depth)
        case Err(e) => Err(e)
        case Ok((end, depth')) => if depth' == 0 then Ok(end) else Skip(bs, end, depth')
  }

  function SkipValue(bs: seq<byte>, i: nat, wireType: int, depth: nat): (r: Result<(nat, nat), WireError>)
    ensures r.Ok? ==> r.value.0 >= i
  {
    VarintEnds(bs, i, 0);
    match wireType
    case 0 =>
      (match DecodeVarint(bs, i)
       case Err(e) => Err(e)
       case Ok(Number(_, end)) => Ok((end, depth)))
    case 1 => Ok((i + 8, depth))
    case 2 =>
      (match DecodeVarint(bs, i)
       case Err(e) => Err(e)
       case Ok(Number(n, start)) =>
         if n >= TWO_63 || start + n >= TWO_63 then Err(InvalidLength) else Ok((start + n, depth)))
    case 3 => Ok((i, depth + 1))
    case 4 => if depth == 0 then Err(EndGroup) else Ok((i, depth - 1))
    case 5 => Ok((i + 4, depth))
    case _ => Err(IllegalWireType(wireType))
  }

  /** A record: a field the message knows, with its payload, or one that it keeps as it is. */
  datatype Record = Known(field: int, from: nat, to: nat) | Unknown(to: nat)

  /** The first record, for a message whose fields 1 to `known` are all length-delimited. */
  function ReadRecord(bs: seq<byte>, known: nat): (r: Result<Record, WireError>)
    ensures r.Ok? ==> 0 < r.value.to <= |bs| && (r.value.Known? ==> r.value.from <= r.value.to)
  {
    match ReadTag(bs)
    case Err(e) => Err(e)
    case Ok(Tag(field, wireType, start)) =>
      if field <= known then
        (match ReadPayload(bs, start, wireType)
         case Err(e) => Err(e)
         case Ok(Payload(from, to)) =>
           VarintEnds(bs, start, 0);
           Ok(Known(field, from, to)))
      else
        (match Skip(bs, 0, 0)
         case Err(e) => Err(e)
         case Ok(n) => if n > |bs| then Err(UnexpectedEOF) else Ok(Unknown(n)))
  }

  lemma TagRead(tag: byte, rest: seq<byte>)
    requires tag < 128 && tag % 8 != 4 && tag >= 8
    ensures ReadTag([tag] + rest) == Ok(Tag(tag / 8, tag as int % 8, 1))
  {
    assert Varint(tag) == [tag];
    VarintRoundTrip(tag, rest);
  }

  lemma PayloadRead(before: seq<byte>, payload: seq<byte>, rest: seq<byte>)
    requires |before| + 10 + |payload| < TWO_63
    ensures var size := Varint(|payload|);
      var bs, start := before + size + payload + rest, |before| + |size|;
      && ReadPayload(bs, |before|, 2) == Ok(Payload(start, start + |payload|))
      && bs[start..start + |payload|] == payload && bs[start + |payload|..] == rest
  {
    hide VarintAt, Varint, Pow128;
    var size := Varint(|payload|);
    TenBytes();
    VarintSize(|payload|, 10);
    VarintBack(before, |payload|, payload + rest, 0);
    assert before + size + payload + rest == before + size + (payload + rest);
  }

  /** A field written is read: its tag, and its payload. */
  lemma FieldRead(tag: byte, payload: seq<byte>, rest: seq<byte>)
    requires tag < 128 && tag % 8 == 2 && tag >= 8 && |payload| + 11 < TWO_63
    ensures var bs := Field(tag, payload) + rest;
      var start := 1 + |Varint(|payload|)|;
      && ReadTag(bs) == Ok(Tag(tag / 8, 2, 1))
      && ReadPayload(bs, 1, 2) == Ok(Payload(start, start + |payload|))
      && bs[start..start + |payload|] == payload && bs[start + |payload|..] == rest
  {
    hide ReadTag, ReadPayload, Varint;
    var size := Varint(|payload|);
    assert Field(tag, payload) + rest == [tag] + (size + payload + rest);
    TagRead(tag, size + payload + rest);
    assert Field(tag, payload) + rest == [tag] + size + payload + rest;
    PayloadRead([tag], payload, rest);
  }

  /** A length-delimited field is passed whole, whatever its number. */
  lemma FieldSkipped(tag: byte, payload: seq<byte>, rest: seq<byte>)
    requires tag < 128 && tag % 8 == 2 && tag >= 8 && |payload| + 11 < TWO_63
    ensures Skip(Field(tag, payload) + rest, 0, 0) == Ok(|Field(tag, payload)|)
  {
    hide ReadPayload, Varint, VarintAt;
    var size := Varint(|payload|);
    var bs := Field(tag, payload) + rest;
    assert bs == [tag] + (size + payload + rest) && Varint(tag) == [tag] by { TagIsVarint(tag); }
    VarintRoundTrip(tag, size + payload + rest);
    TenBytes();
    VarintSize(|payload|, 10);
    VarintBack([tag], |payload|, payload + rest, 0);
    assert bs == [tag] + size + (payload + rest);
  }

  lemma TagIsVarint(tag: byte)
    requires tag < 128
    ensures Varint(tag) == [tag]
  {
  }

  /** A known field at the front is the first record. */
  lemma RecordRead(tag: byte, payload: seq<byte>, rest: seq<byte>, known: nat)
    requires tag < 128 && tag % 8 == 2 && 8 <= tag && tag / 8 <= known && |payload| + 11 < TWO_63
    ensures var bs := Field(tag, payload) + rest;
      var start := 1 + |Varint(|payload|)|;
      && ReadRecord(bs, known) == Ok(Known(tag / 8, start, start + |payload|))
      && bs[start..start + |payload|] == payload && bs[start + |payload|..] == rest
  {
    hide ReadTag, ReadPayload, Varint;
    FieldRead(tag, payload, rest);
  }

  // ---------- records that the message does not know ----------

  /** Whole records, of fields with other numbers than 1 to `known`. */
  predicate UnknownRecords(bs: seq<byte>, known: nat)
    decreases |bs|
  {
    bs == [] || (
      var r := ReadRecord(bs, known);
      r.Ok? && r.value.Unknown? && UnknownRecords(bs[r.value.to..], known))
  }

  /** The same bytes up to n. */
  predicate AgreeTo(a: seq<byte>, b: seq<byte>, n: nat) {
    n <= |a| && n <= |b| && forall i :: 0 <= i < n ==> a[i] == b[i]
  }

  lemma {:induction false} VarintAgrees(a: seq<byte>, b: seq<byte>, n: nat, i: nat, k: nat)
    requires AgreeTo(a, b, n) && VarintAt(a, i, k).Ok? && VarintAt(a, i, k).value.end <= n
    ensures VarintAt(b, i, k) == VarintAt(a, i, k)
    decreases 10 - k
  {
    VarintEnds(a, i, k);
    if a[i] >= 128 { VarintAgrees(a, b, n, i + 1, k + 1); }
  }

  lemma DecodeAgrees(a: seq<byte>, b: seq<byte>, n: nat, i: nat)
    requires AgreeTo(a, b, n) && DecodeVarint(a, i).Ok? && DecodeVarint(a, i).value.end <= n
    ensures DecodeVarint(b, i) == DecodeVarint(a, i) && i < DecodeVarint(a, i).value.end
  {
    VarintAgrees(a, b, n, i, 0);
    VarintEnds(a, i, 0);
  }

  /** What is passed depends on the bytes passed alone. */
  lemma {:induction false} SkipAgrees(a: seq<byte>, b: seq<byte>, n: nat, i: nat, depth: nat)
    requires AgreeTo(a, b, n) && Skip(a, i, depth) == Ok(n)
    ensures Skip(b, i, depth) == Ok(n)
    decreases |a| - i
  {
    hide DecodeVarint;
    var start := DecodeVarint(a, i).value.end;
    VarintEnds(a, i, 0);
    var wire := DecodeVarint(a, i).value.value;
    var v := SkipValue(a, start, wire % 8, depth).value;
    assert i < start <= v.0 by { StartsBehind(a, i); }
    if v.1 == 0 {
      assert v.0 == n;
    } else {
      assert Skip(a, v.0, v.1) == Ok(n);
    }
    DecodeAgrees(a, b, n, i);
    ValueAgrees(a, b, n, start, wire % 8, depth);
    if v.1 != 0 { SkipAgrees(a, b, n, v.0, v.1); }
  }

  lemma StartsBehind(bs: seq<byte>, i: nat)
    ensures DecodeVarint(bs, i).Ok? ==> i < DecodeVarint(bs, i).value.end <= |bs|
  {
    VarintEnds(bs, i, 0);
  }

  lemma ValueAgrees(a: seq<byte>, b: seq<byte>, n: nat, i: nat, wireType: int, depth: nat)
    requires AgreeTo(a, b, n) && SkipValue(a, i, wireType, depth).Ok? && SkipValue(a, i, wireType, depth).value.0 <= n
    ensures SkipValue(b, i, wireType, depth) == SkipValue(a, i, wireType, depth)
  {
    hide DecodeVarint;
    if wireType == 0 || wireType == 2 { DecodeAgrees(a, b, n, i); }
  }

  lemma TagAgrees(a: seq<byte>, b: seq<byte>, n: nat)
    requires AgreeTo(a, b, n) && ReadTag(a).Ok? && ReadTag(a).value.end <= n
    ensures ReadTag(b) == ReadTag(a)
  {
    hide DecodeVarint;
    DecodeAgrees(a, b, n, 0);
  }

  /** An unknown record is read from its own bytes, whatever follows. */
  lemma UnknownAgrees(a: seq<byte>, b: seq<byte>, n: nat, known: nat)
    requires AgreeTo(a, b, n) && ReadRecord(a, known) == Ok(Unknown(n))
    ensures ReadRecord(b, known) == Ok(Unknown(n))
  {
    hide DecodeVarint, ReadPayload;
    assert Skip(a, 0, 0) == Ok(n);
    TagInside(a, n);
    TagAgrees(a, b, n);
    SkipAgrees(a, b, n, 0, 0);
  }

  lemma TagInside(bs: seq<byte>, n: nat)
    requires ReadTag(bs).Ok? && Skip(bs, 0, 0) == Ok(n)
    ensures ReadTag(bs).value.end <= n
  {
    hide DecodeVarint;
    StartsBehind(bs, 0);
    var d := DecodeVarint(bs, 0).value;
    var v := SkipValue(bs, d.end, d.value % 8, 0).value;
    if v.1 != 0 { assert Skip(bs, v.0, v.1) == Ok(n); }
  }

  lemma {:induction false} UnknownJoin(a: seq<byte>, b: seq<byte>, known: nat)
    requires UnknownRecords(a, known) && UnknownRecords(b, known)
    ensures UnknownRecords(a + b, known)
    decreases |a|
  {
    hide ReadRecord;
    if a == [] {
      assert a + b == b;
    } else {
      var n := ReadRecord(a, known).value.to;
      UnknownAgrees(a, a + b, n, known);
      assert (a + b)[n..] == a[n..] + b;
      UnknownJoin(a[n..], b, known);
    }
  }

  /** The bytes of an unknown record are such records by themselves. */
  lemma OneUnknown(bs: seq<byte>, n: nat, known: nat)
    requires n <= |bs| && ReadRecord(bs, known) == Ok(Unknown(n))
    ensures UnknownRecords(bs[..n], known)
  {
    hide ReadRecord;
    UnknownAgrees(bs, bs[..n], n, known);
    assert bs[..n][n..] == [];
  }

  // ---------- no encoding is shorter ----------

  lemma {:induction false} VarintGrows(a: nat, b: nat)
    requires a <= b
    ensures |Varint(a)| <= |Varint(b)|
    decreases b
  {
    if a >= 128 { VarintGrows(a / 128, b / 128); }
  }

  lemma {:induction false} VarintShortest(bs: seq<byte>, i: nat, k: nat)
    requires VarintAt(bs, i, k).Ok?
    ensures var r := VarintAt(bs, i, k).value; i + |Varint(r.value)| <= r.end
    decreases 10 - k
  {
    if bs[i] >= 128 {
      VarintShortest(bs, i + 1, k + 1);
      var v := VarintAt(bs, i + 1, k + 1).value.value;
      if v == 0 {
        VarintEnds(bs, i + 1, k + 1);
      } else {
        assert (bs[i] as int - 128 + 128 * v) / 128 == v;
      }
    }
  }

  lemma DecodeShortest(bs: seq<byte>, i: nat)
    requires DecodeVarint(bs, i).Ok?
    ensures var r := DecodeVarint(bs, i).value; i + |Varint(r.value)| <= r.end
  {
    VarintShortest(bs, i, 0);
    var v := VarintAt(bs, i, 0).value.value;
    VarintGrows(v % TWO_64, v);
  }

  /** A field is written in no more bytes than it was read from. */
  lemma FieldShortest(bs: seq<byte>, known: nat, tag: byte)
    requires ReadRecord(bs, known).Ok? && ReadRecord(bs, known).value.Known?
    ensures var r := ReadRecord(bs, known).value;
      |Field(tag, bs[r.from..r.to])| <= r.to
  {
    hide DecodeVarint, Varint;
    var start := ReadTag(bs).value.end;
    StartsBehind(bs, 0);
    DecodeShortest(bs, start);
  }
}
