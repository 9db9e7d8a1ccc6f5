/**
 The loops that size, marshal and unmarshal the directive messages, against what the messages
 are written as. A marshaler fills the buffer backwards and reports how many bytes it used.
 */
module Marshaling {
  import opened Options
  import opened Unicode
  import opened Wire
  import opened DirectiveMessages

  // ---------- sizes ----------

  method SizeValue(m: Option<DebugValue>) returns (n: nat)
    ensures n == |EncodeElement(m)|
  {
    if m.None? {
      return 0;
    }
    var v := m.value;
    n := 0;
    if |v.key| > 0 {
      n := n + 1 + |v.key| + SizeOfVarint(|v.key|);
      FieldSize(TAG_1, v.key);
    }
    var i := 0;
    while i < |v.values|
      invariant i <= |v.values|
      invariant n + |EncodeStrings(v.values[i..])| == |OptionalField(TAG_1, v.key)| + |EncodeStrings(v.values)|
    {
      var l := |v.values[i]|;
      FieldSize(TAG_2, v.values[i]);
      assert v.values[i..][0] == v.values[i] && v.values[i..][1..] == v.values[i + 1..];
      n := n + 1 + l + SizeOfVarint(l);
      i := i + 1;
    }
    n := n + |v.unknown|;
  }

  lemma ValuesFrom(vals: seq<Option<DebugValue>>, i: nat)
    requires i < |vals|
    ensures EncodeValues(vals[i..]) == Field(TAG_2, EncodeElement(vals[i])) + EncodeValues(vals[i + 1..])
  {
    assert vals[i..][0] == vals[i] && vals[i..][1..] == vals[i + 1..];
  }

  lemma AllValues(vals: seq<Option<DebugValue>>)
    ensures vals[0..] == vals && EncodeValues(vals[|vals|..]) == []
  {
  }

  method SizeInfo(m: Info) returns (n: nat)
    ensures n == |EncodeInfo(m)|
  {
    hide EncodeValues, EncodeElement, Field, SizeOfVarint;
    n := 0;
    if |m.name| > 0 {
      n := n + 1 + |m.name| + SizeOfVarint(|m.name|);
      FieldSize(TAG_1, m.name);
    }
    var i := 0;
    AllValues(m.debugVals);
    while i < |m.debugVals|
      invariant i <= |m.debugVals|
      invariant n + |EncodeValues(m.debugVals[i..])| == |OptionalField(TAG_1, m.name)| + |EncodeValues(m.debugVals)|
    {
      var l := SizeValue(m.debugVals[i]);
      FieldSize(TAG_2, EncodeElement(m.debugVals[i]));
      ValuesFrom(m.debugVals, i);
      n := n + 1 + l + SizeOfVarint(l);
      i := i + 1;
    }
    n := n + |m.unknown|;
  }

  method SizeState(m: State) returns (n: nat)
    ensures n == |EncodeState(m)|
  {
    n := 0;
    if m.info.Some? {
      var l := SizeInfo(m.info.value);
      FieldSize(TAG_1, EncodeInfo(m.info.value));
      n := n + 1 + l + SizeOfVarint(l);
    }
    n := n + |m.unknown|;
  }

  // ---------- filling the buffer from the back ----------

  /** Outside the bytes from `from` to `to` the buffer is as it was. */
  twostate predicate Elsewhere(buf: array<byte>, from: nat, to: nat)
    reads buf
  {
    forall j :: 0 <= j < buf.Length && !(from <= j < to) ==> buf[j] == old(buf[j])
  }

  method PutBytes(buf: array<byte>, end: nat, bytes: Bytes) returns (i: nat)
    requires |bytes| <= end <= buf.Length
    modifies buf
    ensures i == end - |bytes| && buf[i..end] == bytes && Elsewhere(buf, i, end)
  {
    i := end - |bytes|;
    forall j | 0 <= j < |bytes| {
      buf[i + j] := bytes[j];
    }
  }

  lemma VarintLast(v: nat)
    requires v < 128
    ensures Varint(v) == [v] && SizeOfVarint(v) == 1
  {
  }

  lemma VarintMore(v: nat)
    requires v >= 128
    ensures Varint(v) == [128 + v % 128] + Varint(v / 128)
  {
  }

  lemma SizeMore(v: nat)
    requires v >= 128
    ensures SizeOfVarint(v) == 1 + SizeOfVarint(v / 128)
  {
    hide Varint;
  }

  method EncodeVarint(buf: array<byte>, end: nat, value: nat) returns (base: nat)
    requires SizeOfVarint(value) <= end <= buf.Length
    modifies buf
    ensures base == end - SizeOfVarint(value) && buf[base..end] == Varint(value) && Elsewhere(buf, base, end)
  {
    hide Varint;
    base := end - SizeOfVarint(value);
    var v, offset := value, base;
    while v >= 128
      invariant base <= offset && offset + SizeOfVarint(v) == end
      invariant buf[base..offset] + Varint(v) == Varint(value)
      invariant Elsewhere(buf, base, end)
      decreases v
    {
      ghost var was, all := buf[base..offset], buf[..];
      var octet := 128 + v % 128;
      VarintMore(v);
      SizeMore(v);
      buf[offset] := octet;
      OctetPut(all, buf[..], base, offset, octet);
      Regrouped(was, [octet], Varint(v / 128));
      v := v / 128;
      offset := offset + 1;
    }
    ghost var all := buf[..];
    assert Varint(v) == [v] by { VarintLast(v); }
    buf[offset] := v;
    OctetPut(all, buf[..], base, offset, v);
  }

  lemma OctetPut(all: Bytes, now: Bytes, base: nat, at: nat, octet: byte)
    requires base <= at < |all| && now == all[at := octet]
    ensures now[base..at + 1] == all[base..at] + [octet]
  {
  }

  lemma Regrouped(a: Bytes, b: Bytes, c: Bytes)
    ensures a + (b + c) == a + b + c
  {
  }

  /** The length and the tag in front of a payload. */
  method PutHeader(buf: array<byte>, end: nat, size: nat, tag: byte) returns (i: nat)
    requires 1 + SizeOfVarint(size) <= end <= buf.Length
    modifies buf
    ensures i == end - 1 - SizeOfVarint(size) && buf[i..end] == [tag] + Varint(size) && Elsewhere(buf, i, end)
  {
    i := EncodeVarint(buf, end, size);
    ghost var was := buf[i..end];
    i := i - 1;
    buf[i] := tag;
    assert buf[i + 1..end] == was;
  }

  method PutField(buf: array<byte>, end: nat, payload: Bytes, tag: byte) returns (i: nat)
    requires |Field(tag, payload)| <= end <= buf.Length
    modifies buf
    ensures i == end - |Field(tag, payload)| && buf[i..end] == Field(tag, payload) && Elsewhere(buf, i, end)
  {
    FieldSize(tag, payload);
    var p := PutBytes(buf, end, payload);
    i := PutHeader(buf, p, |payload|, tag);
    assert buf[p..end] == payload;
    assert buf[i..end] == buf[i..p] + buf[p..end];
  }

  /** A text field, left out when it is empty. */
  method PutOptional(buf: array<byte>, end: nat, payload: Bytes, tag: byte) returns (i: nat)
    requires |OptionalField(tag, payload)| <= end <= buf.Length
    modifies buf
    ensures i == end - |OptionalField(tag, payload)| && buf[i..end] == OptionalField(tag, payload)
    ensures Elsewhere(buf, i, end)
  {
    i := end;
    if |payload| > 0 {
      i := PutField(buf, end, payload, tag);
    }
  }

  /** Two pieces of the buffer, one behind the other. */
  lemma Joined(buf: array<byte>, a: nat, b: nat, c: nat, x: Bytes, y: Bytes)
    requires a <= b <= c <= buf.Length && buf[a..b] == x && buf[b..c] == y
    ensures buf[a..c] == x + y
  {
  }

  method MarshalStrings(buf: array<byte>, end: nat, values: seq<Bytes>) returns (i: nat)
    requires |EncodeStrings(values)| <= end <= buf.Length
    modifies buf
    ensures i == end - |EncodeStrings(values)| && buf[i..end] == EncodeStrings(values) && Elsewhere(buf, i, end)
  {
    i := end;
    var k := |values|;
    while k > 0
      invariant 0 <= k <= |values| && i == end - |EncodeStrings(values[k..])|
      invariant |EncodeStrings(values[k..])| <= |EncodeStrings(values)|
      invariant buf[i..end] == EncodeStrings(values[k..])
      invariant Elsewhere(buf, i, end)
    {
      ghost var was, i0 := buf[i..end], i;
      StringsLonger(values, k - 1);
      assert values[k - 1..][0] == values[k - 1] && values[k - 1..][1..] == values[k..];
      k := k - 1;
      i := PutField(buf, i, values[k], TAG_2);
      assert buf[i0..end] == was;
      Joined(buf, i, i0, end, Field(TAG_2, values[k]), was);
    }
    assert values[0..] == values;
  }

  lemma {:induction false} StringsLonger(values: seq<Bytes>, k: nat)
    requires k <= |values|
    ensures |EncodeStrings(values[k..])| <= |EncodeStrings(values)|
    decreases |values|
  {
    if k > 0 {
      assert values[k..] == values[1..][k - 1..];
      StringsLonger(values[1..], k - 1);
    } else {
      assert values[0..] == values;
    }
  }

  /** Fills the buffer up to `end` with the message; what is in front stays as it was. */
  method MarshalValue(m: Option<DebugValue>, buf: array<byte>, end: nat) returns (n: nat)
    requires |EncodeElement(m)| <= end <= buf.Length
    modifies buf
    ensures n == |EncodeElement(m)| && buf[end - n..end] == EncodeElement(m) && Elsewhere(buf, end - n, end)
  {
    hide EncodeStrings, OptionalField, Varint, Field;
    if m.None? {
      return 0;
    }
    var i := MarshalPresent(m.value, buf, end);
    n := end - i;
  }

  method MarshalPresent(v: DebugValue, buf: array<byte>, end: nat) returns (i: nat)
    requires |EncodeValue(v)| <= end <= buf.Length
    modifies buf
    ensures i == end - |EncodeValue(v)| && buf[i..end] == EncodeValue(v) && Elsewhere(buf, i, end)
  {
    hide EncodeStrings, OptionalField, Varint, Field;
    var u := PutBytes(buf, end, v.unknown);
    var s := MarshalStrings(buf, u, v.values);
    assert buf[u..end] == v.unknown;
    Joined(buf, s, u, end, EncodeStrings(v.values), v.unknown);
    ghost var rest := buf[s..end];
    i := PutOptional(buf, s, v.key, TAG_1);
    assert buf[s..end] == rest;
    Joined(buf, i, s, end, OptionalField(TAG_1, v.key), EncodeStrings(v.values) + v.unknown);
    assert EncodeValue(v) == OptionalField(TAG_1, v.key) + (EncodeStrings(v.values) + v.unknown);
  }

  /** A message as an element of a list: its bytes, and in front of them length and tag. */
  method MarshalElement(buf: array<byte>, end: nat, m: Option<DebugValue>) returns (i: nat)
    requires |Field(TAG_2, EncodeElement(m))| <= end <= buf.Length
    modifies buf
    ensures i == end - |Field(TAG_2, EncodeElement(m))| && buf[i..end] == Field(TAG_2, EncodeElement(m))
    ensures Elsewhere(buf, i, end)
  {
    hide EncodeElement;
    FieldSize(TAG_2, EncodeElement(m));
    var size := MarshalValue(m, buf, end);
    ghost var payload := buf[end - size..end];
    i := PutHeader(buf, end - size, size, TAG_2);
    assert buf[end - size..end] == payload;
    Joined(buf, i, end - size, end, [TAG_2] + Varint(size), EncodeElement(m));
  }

  method MarshalValues(buf: array<byte>, end: nat, vals: seq<Option<DebugValue>>) returns (i: nat)
    requires |EncodeValues(vals)| <= end <= buf.Length
    modifies buf
    ensures i == end - |EncodeValues(vals)| && buf[i..end] == EncodeValues(vals) && Elsewhere(buf, i, end)
  {
    hide EncodeElement, Field, Varint;
    i := end;
    var k := |vals|;
    while k > 0
      invariant 0 <= k <= |vals| && i == end - |EncodeValues(vals[k..])|
      invariant |EncodeValues(vals[k..])| <= |EncodeValues(vals)|
      invariant buf[i..end] == EncodeValues(vals[k..])
      invariant Elsewhere(buf, i, end)
    {
      ghost var was, i0 := buf[i..end], i;
      ValuesLonger(vals, k - 1);
      assert vals[k - 1..][0] == vals[k - 1] && vals[k - 1..][1..] == vals[k..];
      k := k - 1;
      i := MarshalElement(buf, i, vals[k]);
      assert buf[i0..end] == was;
      Joined(buf, i, i0, end, Field(TAG_2, EncodeElement(vals[k])), was);
    }
    assert vals[0..] == vals;
  }

  lemma {:induction false} ValuesLonger(vals: seq<Option<DebugValue>>, k: nat)
    requires k <= |vals|
    ensures |EncodeValues(vals[k..])| <= |EncodeValues(vals)|
    decreases |vals|
  {
    if k > 0 {
      assert vals[k..] == vals[1..][k - 1..];
      ValuesLonger(vals[1..], k - 1);
    } else {
      assert vals[0..] == vals;
    }
  }

  method MarshalInfo(m: Info, buf: array<byte>, end: nat) returns (n: nat)
    requires |EncodeInfo(m)| <= end <= buf.Length
    modifies buf
    ensures n == |EncodeInfo(m)| && buf[end - n..end] == EncodeInfo(m) && Elsewhere(buf, end - n, end)
  {
    hide EncodeValues, OptionalField;
    var u := PutBytes(buf, end, m.unknown);
    var s := MarshalValues(buf, u, m.debugVals);
    assert buf[u..end] == m.unknown;
    Joined(buf, s, u, end, EncodeValues(m.debugVals), m.unknown);
    ghost var rest := buf[s..end];
    var i := PutOptional(buf, s, m.name, TAG_1);
    assert buf[s..end] == rest;
    Joined(buf, i, s, end, OptionalField(TAG_1, m.name), EncodeValues(m.debugVals) + m.unknown);
    assert EncodeInfo(m) == OptionalField(TAG_1, m.name) + (EncodeValues(m.debugVals) + m.unknown);
    n := end - i;
  }

  method MarshalState(m: State, buf: array<byte>, end: nat) returns (n: nat)
    requires |EncodeState(m)| <= end <= buf.Length
    modifies buf
    ensures n == |EncodeState(m)| && buf[end - n..end] == EncodeState(m) && Elsewhere(buf, end - n, end)
  {
    hide EncodeInfo, Varint;
    var u := PutBytes(buf, end, m.unknown);
    var i := u;
    ghost var rest := buf[u..end];
    if m.info.Some? {
      FieldSize(TAG_1, EncodeInfo(m.info.value));
      var size := MarshalInfo(m.info.value, buf, u);
      ghost var payload := buf[u - size..u];
      i := PutHeader(buf, u - size, size, TAG_1);
      assert buf[u - size..u] == payload;
      Joined(buf, i, u - size, u, [TAG_1] + Varint(size), EncodeInfo(m.info.value));
    }
    assert buf[u..end] == rest;
    Joined(buf, i, u, end, buf[i..u], rest);
    n := end - i;
  }

  /** The size is exact: the buffer is filled from its end to its very beginning. */
  method Marshal(m: State) returns (bytes: Bytes)
    ensures bytes == EncodeState(m)
  {
    var size := SizeState(m);
    var buf := new byte[size](_ => 0);
    var n := MarshalState(m, buf, size);
    assert n == size;
    bytes := buf[..n];
    assert buf[size - n..size] == buf[..n];
  }

  // ---------- reading ----------

  method UnmarshalValueInto(m: DebugValue, bytes: Bytes) returns (r: Result<DebugValue, WireError>)
    ensures r == UnmarshalValue(m, bytes)
  {
    hide ReadRecord;
    var v, i := m, 0;
    assert bytes[0..] == bytes;
    while i < |bytes|
      invariant i <= |bytes|
      invariant UnmarshalValue(v, bytes[i..]) == UnmarshalValue(m, bytes)
    {
      var here := bytes[i..];
      var record := ReadRecord(here, 2);
      if record.Err? {
        return Err(record.error);
      }
      var to := record.value.to;
      assert here[to..] == bytes[i + to..];
      if record.value.Unknown? {
        v := v.(unknown := v.unknown + here[..to]);
      } else if record.value.field == 1 {
        v := v.(key := here[record.value.from..to]);
      } else {
        v := v.(values := v.values + [here[record.value.from..to]]);
      }
      i := i + to;
    }
    r := Ok(v);
  }

  method UnmarshalInfoInto(m: Info, bytes: Bytes) returns (r: Result<Info, WireError>)
    ensures r == UnmarshalInfo(m, bytes)
  {
    hide ReadRecord, UnmarshalValue;
    var v, i := m, 0;
    assert bytes[0..] == bytes;
    while i < |bytes|
      invariant i <= |bytes|
      invariant UnmarshalInfo(v, bytes[i..]) == UnmarshalInfo(m, bytes)
    {
      var here := bytes[i..];
      var record := ReadRecord(here, 2);
      if record.Err? {
        return Err(record.error);
      }
      var to := record.value.to;
      assert here[to..] == bytes[i + to..];
      if record.value.Unknown? {
        v := v.(unknown := v.unknown + here[..to]);
      } else if record.value.field == 1 {
        v := v.(name := here[record.value.from..to]);
      } else {
        var val := UnmarshalValueInto(EMPTY_VALUE, here[record.value.from..to]);
        if val.Err? {
          return Err(val.error);
        }
        v := v.(debugVals := v.debugVals + [Some(val.value)]);
      }
      i := i + to;
    }
    r := Ok(v);
  }

  method UnmarshalStateInto(m: State, bytes: Bytes) returns (r: Result<State, WireError>)
    ensures r == UnmarshalState(m, bytes)
  {
    hide ReadRecord, UnmarshalInfo;
    var v, i := m, 0;
    assert bytes[0..] == bytes;
    while i < |bytes|
      invariant i <= |bytes|
      invariant UnmarshalState(v, bytes[i..]) == UnmarshalState(m, bytes)
    {
      var here := bytes[i..];
      var record := ReadRecord(here, 1);
      if record.Err? {
        return Err(record.error);
      }
      var to := record.value.to;
      assert here[to..] == bytes[i + to..];
      if record.value.Unknown? {
        v := v.(unknown := v.unknown + here[..to]);
      } else {
        var info := UnmarshalInfoInto(InfoOrEmpty(v), here[record.value.from..to]);
        if info.Err? {
          return Err(info.error);
        }
        v := v.(info := Some(info.value));
      }
      i := i + to;
    }
    r := Ok(v);
  }

  /** Marshaling and unmarshaling, as they run. */
  method RoundTrip(m: State) returns (r: Result<State, WireError>)
    requires ProperState(m) && |EncodeState(m)| < MAX_SIZE
    ensures r.Ok? && EqualState(r.value, m)
  {
    var bytes := Marshal(m);
    StateRoundTrip(m);
    r := UnmarshalStateInto(EMPTY_STATE, bytes);
  }
}
