/**
 The directive messages: their exact size, the marshaler that fills its buffer from the back,
 and the unmarshaler that merges what it reads into a message. Messages are values here.
 */
module DirectiveMessages {
  import opened Options
  import opened Unicode
  import opened Wire

  type Bytes = seq<byte>

  datatype DebugValue = DebugValue(key: Bytes, values: seq<Bytes>, unknown: Bytes)
  datatype Info = Info(name: Bytes, debugVals: seq<Option<DebugValue>>, unknown: Bytes)
  datatype State = State(info: Option<Info>, unknown: Bytes)

  const EMPTY_VALUE := DebugValue([], [], [])
  const EMPTY_INFO := Info([], [], [])
  const EMPTY_STATE := State(None, [])

  const TAG_1: byte := 0x0A
  const TAG_2: byte := 0x12

  // ---------- encodings ----------

  function OptionalField(tag: byte, payload: Bytes): Bytes {
    if payload == [] then [] else Field(tag, payload)
  }

  function EncodeStrings(values: seq<Bytes>): Bytes {
    if values == [] then [] else Field(TAG_2, values[0]) + EncodeStrings(values[1..])
  }

  function EncodeValue(m: DebugValue): Bytes {
    OptionalField(TAG_1, m.key) + EncodeStrings(m.values) + m.unknown
  }

  /** A nil message is written as an empty one. */
  function EncodeElement(m: Option<DebugValue>): Bytes {
    match m
    case None => []
    case Some(v) => EncodeValue(v)
  }

  function EncodeValues(vals: seq<Option<DebugValue>>): Bytes {
    if vals == [] then [] else Field(TAG_2, EncodeElement(vals[0])) + EncodeValues(vals[1..])
  }

  function EncodeInfo(m: Info): Bytes {
    OptionalField(TAG_1, m.name) + EncodeValues(m.debugVals) + m.unknown
  }

  function EncodeState(m: State): Bytes {
    (match m.info case None => [] case Some(info) => Field(TAG_1, EncodeInfo(info))) + m.unknown
  }

  // ---------- unmarshaling ----------

  function UnmarshalValue(m: DebugValue, bs: Bytes): Result<DebugValue, WireError>
    decreases |bs|
  {
    if bs == [] then Ok(m)
    else
      match ReadRecord(bs, 2)
      case Err(e) => Err(e)
      case Ok(Unknown(to)) => UnmarshalValue(m.(unknown := m.unknown + bs[..to]), bs[to..])
      case Ok(Known(field, from, to)) =>
        if field == 1 then UnmarshalValue(m.(key := bs[from..to]), bs[to..])
        else UnmarshalValue(m.(values := m.values + [bs[from..to]]), bs[to..])
  }

  function UnmarshalInfo(m: Info, bs: Bytes): Result<Info, WireError>
    decreases |bs|
  {
    if bs == [] then Ok(m)
    else
      match ReadRecord(bs, 2)
      case Err(e) => Err(e)
      case Ok(Unknown(to)) => UnmarshalInfo(m.(unknown := m.unknown + bs[..to]), bs[to..])
      case Ok(Known(field, from, to)) =>
        if field == 1 then UnmarshalInfo(m.(name := bs[from..to]), bs[to..])
        else
          match UnmarshalValue(EMPTY_VALUE, bs[from..to])
          case Err(e) => Err(e)
          case Ok(v) => UnmarshalInfo(m.(debugVals := m.debugVals + [Some(v)]), bs[to..])
  }

  function InfoOrEmpty(m: State): Info {
    match m.info
    case None => EMPTY_INFO
    case Some(info) => info
  }

  function UnmarshalState(m: State, bs: Bytes): Result<State, WireError>
    decreases |bs|
  {
    if bs == [] then Ok(m)
    else
      match ReadRecord(bs, 1)
      case Err(e) => Err(e)
      case Ok(Unknown(to)) => UnmarshalState(m.(unknown := m.unknown + bs[..to]), bs[to..])
      case Ok(Known(_, from, to)) =>
        match UnmarshalInfo(InfoOrEmpty(m), bs[from..to])
        case Err(e) => Err(e)
        case Ok(info) => UnmarshalState(m.(info := Some(info)), bs[to..])
  }

  // ---------- merging ----------

  function Later(a: Bytes, b: Bytes): Bytes {
    if b == [] then a else b
  }

  function Present(m: Option<DebugValue>): DebugValue {
    match m
    case None => EMPTY_VALUE
    case Some(v) => v
  }

  function AllPresent(vals: seq<Option<DebugValue>>): (r: seq<Option<DebugValue>>)
    ensures |r| == |vals| && forall i :: 0 <= i < |r| ==> r[i] == Some(Present(vals[i]))
  {
    if vals == [] then [] else [Some(Present(vals[0]))] + AllPresent(vals[1..])
  }

  function MergeValue(a: DebugValue, b: DebugValue): DebugValue {
    DebugValue(Later(a.key, b.key), a.values + b.values, a.unknown + b.unknown)
  }

  function MergeInfo(a: Info, b: Info): Info {
    Info(Later(a.name, b.name), a.debugVals + AllPresent(b.debugVals), a.unknown + b.unknown)
  }

  function MergeState(a: State, b: State): State {
    State(match b.info
          case None => a.info
          case Some(info) => Some(MergeInfo(InfoOrEmpty(a), info)),
          a.unknown + b.unknown)
  }

  /** What a message keeps as unknown are records, and it does not know them. */
  predicate ProperValue(m: Option<DebugValue>) {
    UnknownRecords(Present(m).unknown, 2)
  }

  predicate ProperInfo(m: Info) {
    UnknownRecords(m.unknown, 2) && forall i :: 0 <= i < |m.debugVals| ==> ProperValue(m.debugVals[i])
  }

  predicate ProperState(m: State) {
    UnknownRecords(m.unknown, 1) && (m.info.Some? ==> ProperInfo(m.info.value))
  }

  /** No slice of bytes gets near the largest int. */
  const MAX_SIZE := TWO_63 - 16

  lemma ValueField(m: DebugValue, tag: byte, payload: Bytes, rest: Bytes)
    requires (tag == TAG_1 || tag == TAG_2) && |payload| < MAX_SIZE
    ensures UnmarshalValue(m, Field(tag, payload) + rest)
         == UnmarshalValue(if tag == TAG_1 then m.(key := payload) else m.(values := m.values + [payload]), rest)
  {
    hide Field;
    RecordRead(tag, payload, rest, 2);
  }

  lemma {:induction false} StringsMerged(m: DebugValue, values: seq<Bytes>, rest: Bytes)
    requires |EncodeStrings(values)| < MAX_SIZE
    ensures UnmarshalValue(m, EncodeStrings(values) + rest)
         == UnmarshalValue(m.(values := m.values + values), rest)
    decreases |values|
  {
    hide UnmarshalValue;
    if values == [] {
      assert EncodeStrings(values) + rest == rest && m.values + values == m.values;
    } else {
      var more := EncodeStrings(values[1..]) + rest;
      assert EncodeStrings(values) + rest == Field(TAG_2, values[0]) + more;
      ValueField(m, TAG_2, values[0], more);
      StringsMerged(m.(values := m.values + [values[0]]), values[1..], rest);
      assert m.values + [values[0]] + values[1..] == m.values + values;
    }
  }

  /** Records it does not know, a message keeps as they are. */
  lemma {:induction false} ValueKeeps(m: DebugValue, u: Bytes, rest: Bytes)
    requires UnknownRecords(u, 2)
    ensures UnmarshalValue(m, u + rest) == UnmarshalValue(m.(unknown := m.unknown + u), rest)
    decreases |u|
  {
    hide ReadRecord;
    if u == [] {
      assert u + rest == rest && m.unknown + u == m.unknown;
    } else {
      var n := ReadRecord(u, 2).value.to;
      UnknownAgrees(u, u + rest, n, 2);
      assert (u + rest)[n..] == u[n..] + rest && (u + rest)[..n] == u[..n];
      ValueKeeps(m.(unknown := m.unknown + u[..n]), u[n..], rest);
      assert m.unknown + u[..n] + u[n..] == m.unknown + u;
    }
  }

  /** Reading an encoded value merges it into the message at hand, and goes on behind it. */
  lemma ValueMerged(m: DebugValue, v: DebugValue, rest: Bytes)
    requires ProperValue(Some(v)) && |EncodeValue(v)| < MAX_SIZE
    ensures UnmarshalValue(m, EncodeValue(v) + rest) == UnmarshalValue(MergeValue(m, v), rest)
  {
    hide UnmarshalValue, EncodeStrings, UnknownRecords;
    var more := EncodeStrings(v.values) + (v.unknown + rest);
    assert EncodeValue(v) + rest == OptionalField(TAG_1, v.key) + more;
    var m1 := m.(key := Later(m.key, v.key));
    if v.key == [] {
      assert OptionalField(TAG_1, v.key) + more == more;
    } else {
      ValueField(m, TAG_1, v.key, more);
    }
    StringsMerged(m1, v.values, v.unknown + rest);
    ValueKeeps(m1.(values := m1.values + v.values), v.unknown, rest);
  }

  lemma ElementRead(v: Option<DebugValue>)
    requires ProperValue(v) && |EncodeElement(v)| < MAX_SIZE
    ensures UnmarshalValue(EMPTY_VALUE, EncodeElement(v)) == Ok(Present(v))
  {
    hide UnknownRecords;
    if v.Some? {
      ValueMerged(EMPTY_VALUE, v.value, []);
      NothingAdded(EncodeValue(v.value), []);
      NothingAdded([], v.value.values);
      NothingAdded([], v.value.unknown);
    }
  }

  lemma Grouped<A>(a: seq<A>, b: seq<A>, c: seq<A>)
    ensures a + b + c == a + (b + c)
  {
  }

  lemma NothingAdded<A>(a: seq<A>, b: seq<A>)
    ensures b == [] ==> a + b == a
    ensures a == [] ==> a + b == b
  {
  }

  lemma InfoField(m: Info, tag: byte, payload: Bytes, rest: Bytes)
    requires (tag == TAG_1 || tag == TAG_2) && |payload| < MAX_SIZE
    requires tag == TAG_2 ==> UnmarshalValue(EMPTY_VALUE, payload).Ok?
    ensures UnmarshalInfo(m, Field(tag, payload) + rest)
         == UnmarshalInfo(if tag == TAG_1 then m.(name := payload)
                          else m.(debugVals := m.debugVals + [Some(UnmarshalValue(EMPTY_VALUE, payload).value)]), rest)
  {
    hide Field, UnmarshalValue;
    RecordRead(tag, payload, rest, 2);
  }

  lemma {:induction false} ValuesMerged(m: Info, vals: seq<Option<DebugValue>>, rest: Bytes)
    requires |EncodeValues(vals)| < MAX_SIZE && forall i :: 0 <= i < |vals| ==> ProperValue(vals[i])
    ensures UnmarshalInfo(m, EncodeValues(vals) + rest)
         == UnmarshalInfo(m.(debugVals := m.debugVals + AllPresent(vals)), rest)
    decreases |vals|
  {
    hide UnmarshalInfo, UnmarshalValue, EncodeElement, ProperValue, Present, Field;
    if vals == [] {
      NothingAdded(EncodeValues(vals), rest);
      NothingAdded(m.debugVals, AllPresent(vals));
    } else {
      var more := EncodeValues(vals[1..]) + rest;
      Grouped(Field(TAG_2, EncodeElement(vals[0])), EncodeValues(vals[1..]), rest);
      FieldSize(TAG_2, EncodeElement(vals[0]));
      ElementRead(vals[0]);
      InfoField(m, TAG_2, EncodeElement(vals[0]), more);
      var first := Some(Present(vals[0]));
      ValuesMerged(m.(debugVals := m.debugVals + [first]), vals[1..], rest);
      Grouped(m.debugVals, [first], AllPresent(vals[1..]));
    }
  }

  lemma {:induction false} InfoKeeps(m: Info, u: Bytes, rest: Bytes)
    requires UnknownRecords(u, 2)
    ensures UnmarshalInfo(m, u + rest) == UnmarshalInfo(m.(unknown := m.unknown + u), rest)
    decreases |u|
  {
    hide ReadRecord;
    if u == [] {
      assert u + rest == rest && m.unknown + u == m.unknown;
    } else {
      var n := ReadRecord(u, 2).value.to;
      UnknownAgrees(u, u + rest, n, 2);
      assert (u + rest)[n..] == u[n..] + rest && (u + rest)[..n] == u[..n];
      InfoKeeps(m.(unknown := m.unknown + u[..n]), u[n..], rest);
      assert m.unknown + u[..n] + u[n..] == m.unknown + u;
    }
  }

  lemma InfoMerged(m: Info, v: Info, rest: Bytes)
    requires ProperInfo(v) && |EncodeInfo(v)| < MAX_SIZE
    ensures UnmarshalInfo(m, EncodeInfo(v) + rest) == UnmarshalInfo(MergeInfo(m, v), rest)
  {
    hide UnmarshalInfo, EncodeValues, AllPresent, ProperValue, UnknownRecords;
    var more := EncodeValues(v.debugVals) + (v.unknown + rest);
    assert EncodeInfo(v) + rest == OptionalField(TAG_1, v.name) + more;
    var m1 := m.(name := Later(m.name, v.name));
    if v.name == [] {
      assert OptionalField(TAG_1, v.name) + more == more;
    } else {
      InfoField(m, TAG_1, v.name, more);
    }
    ValuesMerged(m1, v.debugVals, v.unknown + rest);
    InfoKeeps(m1.(debugVals := m1.debugVals + AllPresent(v.debugVals)), v.unknown, rest);
  }

  lemma InfoRead(m: Info, v: Info)
    requires ProperInfo(v) && |EncodeInfo(v)| < MAX_SIZE
    ensures UnmarshalInfo(m, EncodeInfo(v)) == Ok(MergeInfo(m, v))
  {
    hide ProperInfo, MergeInfo, EncodeInfo;
    InfoMerged(m, v, []);
    assert EncodeInfo(v) + [] == EncodeInfo(v);
  }

  lemma {:induction false} StateKeeps(m: State, u: Bytes, rest: Bytes)
    requires UnknownRecords(u, 1)
    ensures UnmarshalState(m, u + rest) == UnmarshalState(m.(unknown := m.unknown + u), rest)
    decreases |u|
  {
    hide ReadRecord;
    if u == [] {
      assert u + rest == rest && m.unknown + u == m.unknown;
    } else {
      var n := ReadRecord(u, 1).value.to;
      UnknownAgrees(u, u + rest, n, 1);
      assert (u + rest)[n..] == u[n..] + rest && (u + rest)[..n] == u[..n];
      StateKeeps(m.(unknown := m.unknown + u[..n]), u[n..], rest);
      assert m.unknown + u[..n] + u[n..] == m.unknown + u;
    }
  }

  lemma InfoInState(m: State, info: Info, rest: Bytes)
    requires ProperInfo(info) && |EncodeInfo(info)| < MAX_SIZE
    ensures UnmarshalState(m, Field(TAG_1, EncodeInfo(info)) + rest)
         == UnmarshalState(m.(info := Some(MergeInfo(InfoOrEmpty(m), info))), rest)
  {
    hide UnmarshalInfo, EncodeInfo, MergeInfo, ProperInfo, Field;
    InfoRead(InfoOrEmpty(m), info);
    RecordRead(TAG_1, EncodeInfo(info), rest, 1);
  }

  lemma StateMerged(m: State, v: State, rest: Bytes)
    requires ProperState(v) && |EncodeState(v)| < MAX_SIZE
    ensures UnmarshalState(m, EncodeState(v) + rest) == UnmarshalState(MergeState(m, v), rest)
  {
    hide UnmarshalState, EncodeInfo, MergeInfo, ProperInfo, Field, UnknownRecords;
    match v.info
    case None =>
      assert EncodeState(v) + rest == v.unknown + rest;
      StateKeeps(m, v.unknown, rest);
    case Some(info) =>
      assert |EncodeInfo(info)| < |Field(TAG_1, EncodeInfo(info))| by { FieldSize(TAG_1, EncodeInfo(info)); }
      assert EncodeState(v) + rest == Field(TAG_1, EncodeInfo(info)) + (v.unknown + rest);
      InfoInState(m, info, v.unknown + rest);
      StateKeeps(m.(info := Some(MergeInfo(InfoOrEmpty(m), info))), v.unknown, rest);
  }

  lemma FieldSize(tag: byte, payload: Bytes)
    ensures |Field(tag, payload)| == 1 + SizeOfVarint(|payload|) + |payload|
  {
  }

  // ---------- equality ----------

  predicate EqualValue(a: DebugValue, b: DebugValue) {
    && a.key == b.key
    && |a.values| == |b.values| && (forall i :: 0 <= i < |a.values| ==> a.values[i] == b.values[i])
    && a.unknown == b.unknown
  }

  predicate EqualInfo(a: Info, b: Info) {
    && a.name == b.name
    && |a.debugVals| == |b.debugVals|
    && (forall i :: 0 <= i < |a.debugVals| ==> EqualValue(Present(a.debugVals[i]), Present(b.debugVals[i])))
    && a.unknown == b.unknown
  }

  /** Absent and empty are the same for the elements of a list, but not for the info. */
  predicate EqualState(a: State, b: State) {
    && (a.info.None? <==> b.info.None?)
    && (a.info.Some? && b.info.Some? ==> EqualInfo(a.info.value, b.info.value))
    && a.unknown == b.unknown
  }

  lemma EqualValueIsEquality(a: DebugValue, b: DebugValue)
    ensures EqualValue(a, b) <==> a == b
  {
    if EqualValue(a, b) { assert a.values == b.values; }
  }

  lemma EqualInfoIsPresence(a: Info, b: Info)
    ensures EqualInfo(a, b) <==>
      a.(debugVals := AllPresent(a.debugVals)) == b.(debugVals := AllPresent(b.debugVals))
  {
    hide EqualValue, Present;
    var p, q := AllPresent(a.debugVals), AllPresent(b.debugVals);
    if EqualInfo(a, b) {
      forall i | 0 <= i < |p| ensures p[i] == q[i] {
        EqualValueIsEquality(Present(a.debugVals[i]), Present(b.debugVals[i]));
      }
      assert p == q;
    }
    if a.(debugVals := p) == b.(debugVals := q) {
      assert p == q;
      forall i | 0 <= i < |p| ensures EqualValue(Present(a.debugVals[i]), Present(b.debugVals[i])) {
        assert p[i] == q[i];
        EqualValueIsEquality(Present(a.debugVals[i]), Present(b.debugVals[i]));
      }
    }
  }

  // ---------- the main properties ----------

  /** What is marshaled is unmarshaled to an equal message, its unknown fields included. */
  lemma StateRoundTrip(m: State)
    requires ProperState(m) && |EncodeState(m)| < MAX_SIZE
    ensures var r := UnmarshalState(EMPTY_STATE, EncodeState(m)); r.Ok? && EqualState(r.value, m)
  {
    hide EqualInfo, ProperInfo, AllPresent, UnknownRecords, EncodeState;
    StateMerged(EMPTY_STATE, m, []);
    assert EncodeState(m) + [] == EncodeState(m) && [] + m.unknown == m.unknown;
    if m.info.Some? {
      var info := m.info.value;
      assert [] + AllPresent(info.debugVals) == AllPresent(info.debugVals) && [] + info.unknown == info.unknown;
      PresentTwice(info.debugVals);
      EqualInfoIsPresence(MergeInfo(EMPTY_INFO, info), info);
    }
  }

  lemma PresentTwice(vals: seq<Option<DebugValue>>)
    ensures AllPresent(AllPresent(vals)) == AllPresent(vals)
  {
  }

  /**
   Unmarshaling two encodings one after the other gives the later name, if it is not empty, the
   lists one after the other, and the infos merged in the same way.
   */
  lemma ConcatenationIsMerge(m: State, a: State, b: State)
    requires ProperState(a) && ProperState(b) && |EncodeState(a)| < MAX_SIZE && |EncodeState(b)| < MAX_SIZE
    ensures UnmarshalState(m, EncodeState(a) + EncodeState(b)) == Ok(MergeState(MergeState(m, a), b))
  {
    hide EncodeState, MergeState, ProperState;
    StateMerged(m, a, EncodeState(b));
    StateMerged(MergeState(m, a), b, []);
    assert EncodeState(b) + [] == EncodeState(b);
  }

  /** Messages are equal just when they are written as the same bytes. */
  lemma EqualIsSameBytes(a: State, b: State)
    requires ProperState(a) && ProperState(b) && |EncodeState(a)| < MAX_SIZE && |EncodeState(b)| < MAX_SIZE
    ensures EqualState(a, b) <==> EncodeState(a) == EncodeState(b)
  {
    hide ProperInfo, EqualInfo, UnknownRecords;
    if EncodeState(a) == EncodeState(b) {
      StateRoundTrip(a);
      StateRoundTrip(b);
      var r := UnmarshalState(EMPTY_STATE, EncodeState(a)).value;
      if a.info.Some? && b.info.Some? {
        EqualInfoIsPresence(r.info.value, a.info.value);
        EqualInfoIsPresence(r.info.value, b.info.value);
        EqualInfoIsPresence(a.info.value, b.info.value);
      }
    }
    if EqualState(a, b) && a.info.Some? {
      EqualInfoIsPresence(a.info.value, b.info.value);
      PresenceInBytes(a.info.value.debugVals);
      PresenceInBytes(b.info.value.debugVals);
    }
  }

  lemma {:induction false} PresenceInBytes(vals: seq<Option<DebugValue>>)
    ensures EncodeValues(AllPresent(vals)) == EncodeValues(vals)
  {
    if vals != [] {
      assert EncodeElement(Some(EMPTY_VALUE)) == [];
      assert AllPresent(vals)[1..] == AllPresent(vals[1..]);
      PresenceInBytes(vals[1..]);
    }
  }

  // ---------- any bytes ----------

  lemma {:induction false} ValueIsProper(m: DebugValue, bs: Bytes)
    requires UnknownRecords(m.unknown, 2) && UnmarshalValue(m, bs).Ok?
    ensures UnknownRecords(UnmarshalValue(m, bs).value.unknown, 2)
    ensures |EncodeValue(UnmarshalValue(m, bs).value)| <= |EncodeValue(m)| + |bs|
    decreases |bs|
  {
    hide ReadRecord, UnknownRecords, EncodeValue;
    if bs != [] {
      var r := ReadRecord(bs, 2).value;
      if r.Unknown? {
        OneUnknown(bs, r.to, 2);
        UnknownJoin(m.unknown, bs[..r.to], 2);
        ValueIsProper(m.(unknown := m.unknown + bs[..r.to]), bs[r.to..]);
        ValueGrows(m, bs[..r.to]);
      } else {
        var tag := if r.field == 1 then TAG_1 else TAG_2;
        FieldShortest(bs, 2, tag);
        ValueSet(m, tag, bs[r.from..r.to]);
        ValueIsProper(if r.field == 1 then m.(key := bs[r.from..r.to]) else m.(values := m.values + [bs[r.from..r.to]]),
                      bs[r.to..]);
      }
    }
  }

  lemma ValueGrows(m: DebugValue, u: Bytes)
    ensures |EncodeValue(m.(unknown := m.unknown + u))| == |EncodeValue(m)| + |u|
  {
  }

  lemma ValueSet(m: DebugValue, tag: byte, payload: Bytes)
    ensures tag == TAG_1 ==> |EncodeValue(m.(key := payload))| <= |EncodeValue(m)| + |Field(tag, payload)|
    ensures tag == TAG_2 ==>
      |EncodeValue(m.(values := m.values + [payload]))| == |EncodeValue(m)| + |Field(tag, payload)|
  {
    StringsSnoc(m.values, payload);
  }

  lemma {:induction false} StringsSnoc(values: seq<Bytes>, payload: Bytes)
    ensures EncodeStrings(values + [payload]) == EncodeStrings(values) + Field(TAG_2, payload)
  {
    if values == [] {
      assert ([] + [payload])[1..] == [];
    } else {
      assert (values + [payload])[1..] == values[1..] + [payload];
      StringsSnoc(values[1..], payload);
    }
  }

  lemma {:induction false} ValuesSnoc(vals: seq<Option<DebugValue>>, v: Option<DebugValue>)
    ensures EncodeValues(vals + [v]) == EncodeValues(vals) + Field(TAG_2, EncodeElement(v))
  {
    if vals == [] {
      assert ([] + [v])[1..] == [];
    } else {
      assert (vals + [v])[1..] == vals[1..] + [v];
      ValuesSnoc(vals[1..], v);
    }
  }

  lemma FieldMonotone(tag: byte, a: Bytes, b: Bytes)
    requires |a| <= |b|
    ensures |Field(tag, a)| <= |Field(tag, b)|
  {
    VarintGrows(|a|, |b|);
  }

  lemma {:induction false} InfoIsProper(m: Info, bs: Bytes)
    requires ProperInfo(m) && UnmarshalInfo(m, bs).Ok?
    ensures ProperInfo(UnmarshalInfo(m, bs).value)
    ensures |EncodeInfo(UnmarshalInfo(m, bs).value)| <= |EncodeInfo(m)| + |bs|
    decreases |bs|
  {
    hide ReadRecord, UnknownRecords, EncodeInfo, UnmarshalValue, Field;
    if bs != [] {
      var r := ReadRecord(bs, 2).value;
      if r.Unknown? {
        OneUnknown(bs, r.to, 2);
        UnknownJoin(m.unknown, bs[..r.to], 2);
        InfoIsProper(m.(unknown := m.unknown + bs[..r.to]), bs[r.to..]);
        InfoGrows(m, bs[..r.to]);
      } else if r.field == 1 {
        FieldShortest(bs, 2, TAG_1);
        InfoNamed(m, bs[r.from..r.to]);
        InfoIsProper(m.(name := bs[r.from..r.to]), bs[r.to..]);
      } else {
        var v := ElementOf(m, bs, r.from, r.to);
        InfoIsProper(m.(debugVals := m.debugVals + [Some(v)]), bs[r.to..]);
      }
    }
  }

  /** A list element as it is read. */
  lemma ElementOf(m: Info, bs: Bytes, from: nat, to: nat) returns (v: DebugValue)
    requires ProperInfo(m) && bs != []
    requires ReadRecord(bs, 2).Ok? && ReadRecord(bs, 2).value.Known? && ReadRecord(bs, 2).value.from == from
    requires ReadRecord(bs, 2).value.to == to && UnmarshalValue(EMPTY_VALUE, bs[from..to]).Ok?
    ensures UnmarshalValue(EMPTY_VALUE, bs[from..to]) == Ok(v)
    ensures ProperInfo(m.(debugVals := m.debugVals + [Some(v)]))
    ensures |EncodeInfo(m.(debugVals := m.debugVals + [Some(v)]))| <= |EncodeInfo(m)| + to
  {
    hide ReadRecord, UnmarshalValue, Field, UnknownRecords;
    v := UnmarshalValue(EMPTY_VALUE, bs[from..to]).value;
    assert UnknownRecords([], 2) by { NoRecords(2); }
    ValueIsProper(EMPTY_VALUE, bs[from..to]);
    assert EncodeValue(EMPTY_VALUE) == [];
    FieldShortest(bs, 2, TAG_2);
    FieldMonotone(TAG_2, EncodeValue(v), bs[from..to]);
    ValuesSnoc(m.debugVals, Some(v));
  }

  lemma NoRecords(known: nat)
    ensures UnknownRecords([], known)
  {
  }

  lemma InfoGrows(m: Info, u: Bytes)
    ensures |EncodeInfo(m.(unknown := m.unknown + u))| == |EncodeInfo(m)| + |u|
  {
  }

  lemma InfoNamed(m: Info, payload: Bytes)
    ensures |EncodeInfo(m.(name := payload))| <= |EncodeInfo(m)| + |Field(TAG_1, payload)|
  {
  }

  lemma {:induction false} StateIsProper(m: State, bs: Bytes)
    requires ProperState(m) && UnmarshalState(m, bs).Ok?
    ensures ProperState(UnmarshalState(m, bs).value)
    ensures |EncodeState(UnmarshalState(m, bs).value)| <= |EncodeState(m)| + |bs|
    decreases |bs|
  {
    hide ReadRecord, UnknownRecords, EncodeState, UnmarshalInfo, Field, ProperInfo;
    if bs != [] {
      var r := ReadRecord(bs, 1).value;
      if r.Unknown? {
        OneUnknown(bs, r.to, 1);
        UnknownJoin(m.unknown, bs[..r.to], 1);
        StateIsProper(m.(unknown := m.unknown + bs[..r.to]), bs[r.to..]);
        StateGrows(m, bs[..r.to]);
      } else {
        var info := InfoOf(m, bs, r.from, r.to);
        StateIsProper(m.(info := Some(info)), bs[r.to..]);
      }
    }
  }

  lemma StateGrows(m: State, u: Bytes)
    ensures |EncodeState(m.(unknown := m.unknown + u))| == |EncodeState(m)| + |u|
  {
  }

  /** The info as it is read, merged into what there was. */
  lemma InfoOf(m: State, bs: Bytes, from: nat, to: nat) returns (info: Info)
    requires ProperState(m) && bs != []
    requires ReadRecord(bs, 1).Ok? && ReadRecord(bs, 1).value.Known? && ReadRecord(bs, 1).value.from == from
    requires ReadRecord(bs, 1).value.to == to && UnmarshalInfo(InfoOrEmpty(m), bs[from..to]).Ok?
    ensures UnmarshalInfo(InfoOrEmpty(m), bs[from..to]) == Ok(info)
    ensures ProperState(m.(info := Some(info)))
    ensures |EncodeState(m.(info := Some(info)))| <= |EncodeState(m)| + to
  {
    hide ReadRecord, UnmarshalInfo, EncodeInfo, UnknownRecords, Field;
    info := UnmarshalInfo(InfoOrEmpty(m), bs[from..to]).value;
    assert UnknownRecords([], 2) by { NoRecords(2); }
    InfoIsProper(InfoOrEmpty(m), bs[from..to]);
    assert EncodeInfo(EMPTY_INFO) == [] by { NothingEncoded(); }
    FieldShortest(bs, 1, TAG_1);
    var was, read := EncodeInfo(InfoOrEmpty(m)), bs[from..to];
    FieldMonotone(TAG_1, EncodeInfo(info), was + read);
    if m.info.Some? {
      FieldJoined(TAG_1, was, read);
    } else {
      assert was + read == read;
    }
  }

  lemma NothingEncoded()
    ensures EncodeInfo(EMPTY_INFO) == []
  {
  }

  lemma FieldJoined(tag: byte, a: Bytes, b: Bytes)
    ensures |Field(tag, a + b)| <= |Field(tag, a)| + |Field(tag, b)|
  {
    VarintJoined(|a|, |b|);
  }

  lemma {:induction false} VarintJoined(a: nat, b: nat)
    ensures |Varint(a + b)| <= |Varint(a)| + |Varint(b)|
  {
    if a + b >= 128 {
      if a < 128 {
        VarintGrows((a + b) / 128, b / 128 + 1);
        if b >= 128 { VarintNext(b / 128); } else { assert (a + b) / 128 == 1; }
      } else if b < 128 {
        VarintGrows((a + b) / 128, a / 128 + 1);
        VarintNext(a / 128);
      } else {
        VarintGrows((a + b) / 128, a / 128 + (b / 128 + 1));
        VarintJoined(a / 128, b / 128 + 1);
        VarintNext(b / 128);
      }
    }
  }

  lemma {:induction false} VarintNext(a: nat)
    ensures |Varint(a + 1)| <= |Varint(a)| + 1
  {
    if a >= 128 {
      VarintNext(a / 128);
      VarintGrows((a + 1) / 128, a / 128 + 1);
    }
  }

  /**
   For any bytes that are unmarshaled at all: marshaling the message and unmarshaling again gives
   an equal message, what it did not know included; and the bytes have not become more.
   */
  lemma ReadWriteRead(bs: Bytes)
    requires |bs| < MAX_SIZE
    ensures var r := UnmarshalState(EMPTY_STATE, bs);
      r.Ok? ==>
        && ProperState(r.value) && |EncodeState(r.value)| <= |bs|
        && var again := UnmarshalState(EMPTY_STATE, EncodeState(r.value));
           again.Ok? && EqualState(again.value, r.value)
  {
    hide UnmarshalState, EqualState, UnknownRecords;
    if UnmarshalState(EMPTY_STATE, bs).Ok? {
      NoRecords(1);
      assert EncodeState(EMPTY_STATE) == [];
      StateIsProper(EMPTY_STATE, bs);
      StateRoundTrip(UnmarshalState(EMPTY_STATE, bs).value);
    }
  }

  /** Unknown bytes that are a field the message knows are written as that field would be. */
  lemma OddUnknownBytes()
    ensures var a, b := State(Some(Info([0x78], [], [])), []), State(Some(Info([], [], Field(TAG_1, [0x78]))), []);
      EncodeState(a) == EncodeState(b) && !EqualState(a, b) && ProperState(a) && !ProperState(b)
  {
    hide ReadRecord, Field;
    RecordRead(TAG_1, [0x78], [], 2);
    var u := Field(TAG_1, [0x78]);
    assert u + [] == u;
    FieldSize(TAG_1, [0x78]);
    assert OptionalField(TAG_1, [0x78]) + EncodeValues([]) + [] == [] + EncodeValues([]) + u;
  }
}
