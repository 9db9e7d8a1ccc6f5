/**
 Records of every wire type, written as the Protocol Buffers Encoding specification says, and
 what becomes of them: they are passed whole, and a message reads them one by one.
 */
module WireRecords {
  import opened Options
  import opened Unicode
  import opened Wire

  /** One field: its number and its value, a group with the fields inside it. */
  datatype Item =
    | VarintItem(field: nat, value: nat)
    | Fixed64Item(field: nat, octets: seq<byte>)
    | BytesItem(field: nat, payload: seq<byte>)
    | GroupItem(field: nat, items: seq<Item>)
    | Fixed32Item(field: nat, octets: seq<byte>)

  /** Field numbers have 29 bits, numbers 64, and the fixed-size types eight and four bytes. */
  predicate ValidItem(x: Item)
    decreases x, 1
  {
    && 1 <= x.field < 0x2000_0000
    && (match x
        case VarintItem(_, v) => v < TWO_64
        case Fixed64Item(_, octets) => |octets| == 8
        case BytesItem(_, _) => true
        case GroupItem(_, items) => ValidItems(items)
        case Fixed32Item(_, octets) => |octets| == 4)
  }

  predicate ValidItems(items: seq<Item>)
    decreases items, 0
  {
    items == [] || (ValidItem(items[0]) && ValidItems(items[1..]))
  }

  function TypeOf(x: Item): (t: nat)
    ensures t <= 5 && t != 4
  {
    match x
    case VarintItem(_, _) => 0
    case Fixed64Item(_, _) => 1
    case BytesItem(_, _) => 2
    case GroupItem(_, _) => 3
    case Fixed32Item(_, _) => 5
  }

  function ItemBytes(x: Item): (bs: seq<byte>)
    ensures bs != []
    decreases x, 1
  {
    Varint(8 * x.field + TypeOf(x)) + Body(x)
  }

  function Body(x: Item): seq<byte>
    decreases x, 0
  {
    match x
    case VarintItem(_, v) => Varint(v)
    case Fixed64Item(_, octets) => octets
    case BytesItem(_, payload) => Varint(|payload|) + payload
    case GroupItem(field, items) => ItemsBytes(items) + Varint(8 * field + 4)
    case Fixed32Item(_, octets) => octets
  }

  function ItemsBytes(items: seq<Item>): seq<byte>
    decreases items, 0
  {
    if items == [] then [] else ItemBytes(items[0]) + ItemsBytes(items[1..])
  }

  // ---------- passing them ----------

  /** What is left to pass at i, groups still being open. */
  function Onward(bs: seq<byte>, i: nat, depth: nat): Result<nat, WireError> {
    if depth == 0 then Ok(i) else Skip(bs, i, depth)
  }

  lemma NumberAt(bs: seq<byte>, i: nat, v: nat, rest: seq<byte>)
    requires v < TWO_64 && i <= |bs| && bs[i..] == Varint(v) + rest
    ensures DecodeVarint(bs, i) == Ok(Number(v, i + |Varint(v)|))
    ensures i + |Varint(v)| <= |bs| && bs[i + |Varint(v)|..] == rest
  {
    hide Varint, VarintAt;
    TenBytes();
    VarintSize(v, 10);
    VarintBack(bs[..i], v, rest, 0);
    assert bs == bs[..i] + Varint(v) + rest by { assert bs == bs[..i] + bs[i..]; }
    assert bs[i + |Varint(v)|..] == bs[i..][|Varint(v)|..];
  }

  /** The tag at i, and what is passed behind it. */
  lemma TagAt(bs: seq<byte>, i: nat, depth: nat, field: nat, wireType: nat, rest: seq<byte>)
    requires wireType < 8 && field < 0x2000_0000 && i <= |bs| && bs[i..] == Varint(8 * field + wireType) + rest
    ensures var start := i + |Varint(8 * field + wireType)|;
      && i < start <= |bs| && bs[start..] == rest
      && Skip(bs, i, depth) == match SkipValue(bs, start, wireType, depth)
                               case Err(e) => Err(e)
                               case Ok((end, depth')) => Onward(bs, end, depth')
  {
    hide Varint, SkipValue, DecodeVarint;
    NumberAt(bs, i, 8 * field + wireType, rest);
  }

  lemma PayloadPassed(bs: seq<byte>, i: nat, depth: nat, payload: seq<byte>, rest: seq<byte>)
    requires |bs| < TWO_63 && i <= |bs| && bs[i..] == Varint(|payload|) + payload + rest
    ensures var end := i + |Varint(|payload|)| + |payload|;
      && end <= |bs| && bs[end..] == rest && SkipValue(bs, i, 2, depth) == Ok((end, depth))
  {
    hide Varint, DecodeVarint;
    assert bs[i..] == Varint(|payload|) + (payload + rest);
    Behind(bs, i, Varint(|payload|), payload + rest);
    Behind(bs, i + |Varint(|payload|)|, payload, rest);
    NumberAt(bs, i, |payload|, payload + rest);
  }

  /** A record of any type is passed whole, at any depth, whatever follows. */
  lemma {:induction false} ItemPassed(bs: seq<byte>, i: nat, depth: nat, x: Item, rest: seq<byte>)
    requires ValidItem(x) && |bs| < TWO_63 && i <= |bs| && bs[i..] == ItemBytes(x) + rest
    ensures i + |ItemBytes(x)| <= |bs| && bs[i + |ItemBytes(x)|..] == rest
    ensures Skip(bs, i, depth) == Onward(bs, i + |ItemBytes(x)|, depth)
    decreases x, 1
  {
    hide Varint, DecodeVarint, Skip, ItemsBytes, ValidItems;
    var tag := Varint(8 * x.field + TypeOf(x));
    var start := i + |tag|;
    assert bs[i..] == tag + (Body(x) + rest);
    TagAt(bs, i, depth, x.field, TypeOf(x), Body(x) + rest);
    match x
    case VarintItem(_, v) => NumberAt(bs, start, v, rest);
    case Fixed64Item(_, octets) => Behind(bs, start, octets, rest);
    case Fixed32Item(_, octets) => Behind(bs, start, octets, rest);
    case BytesItem(_, payload) =>
      PayloadPassed(bs, start, depth, payload, rest);
    case GroupItem(field, items) =>
      var end := Varint(8 * field + 4);
      assert Body(x) + rest == ItemsBytes(items) + (end + rest);
      ItemsPassed(bs, start, depth + 1, items, end + rest);
      TagAt(bs, start + |ItemsBytes(items)|, depth + 1, field, 4, rest);
  }

  lemma Behind(bs: seq<byte>, i: nat, part: seq<byte>, rest: seq<byte>)
    requires i <= |bs| && bs[i..] == part + rest
    ensures i + |part| <= |bs| && bs[i + |part|..] == rest && bs[i..i + |part|] == part
  {
    assert bs[i + |part|..] == bs[i..][|part|..];
    assert bs[i..i + |part|] == bs[i..][..|part|];
  }

  lemma {:induction false} ItemsPassed(bs: seq<byte>, i: nat, depth: nat, items: seq<Item>, rest: seq<byte>)
    requires ValidItems(items) && depth >= 1 && |bs| < TWO_63
    requires i <= |bs| && bs[i..] == ItemsBytes(items) + rest
    ensures i + |ItemsBytes(items)| <= |bs| && bs[i + |ItemsBytes(items)|..] == rest
    ensures Skip(bs, i, depth) == Skip(bs, i + |ItemsBytes(items)|, depth)
    decreases items, 0
  {
    hide Skip, ItemBytes, ValidItem;
    Behind(bs, i, ItemsBytes(items), rest);
    if items != [] {
      var more := ItemsBytes(items[1..]) + rest;
      assert bs[i..] == ItemBytes(items[0]) + more;
      ItemPassed(bs, i, depth, items[0], more);
      ItemsPassed(bs, i + |ItemBytes(items[0])|, depth, items[1..], rest);
    }
  }

  /** Skip takes just the record at the front, of whatever type, with whatever is nested in it. */
  lemma RecordSkipped(x: Item, rest: seq<byte>)
    requires ValidItem(x) && |ItemBytes(x) + rest| < TWO_63
    ensures Skip(ItemBytes(x) + rest, 0, 0) == Ok(|ItemBytes(x)|)
  {
    hide Skip, ItemBytes, ValidItem;
    var bs := ItemBytes(x) + rest;
    assert bs[0..] == bs;
    ItemPassed(bs, 0, 0, x, rest);
  }

  // ---------- reading them ----------

  lemma TagRead(x: Item, rest: seq<byte>)
    requires ValidItem(x)
    ensures ReadTag(ItemBytes(x) + rest) == Ok(Tag(x.field, TypeOf(x), |Varint(8 * x.field + TypeOf(x))|))
  {
    hide Varint, DecodeVarint, Body;
    var bs := ItemBytes(x) + rest;
    var wire := 8 * x.field + TypeOf(x);
    assert bs[0..] == Varint(wire) + (Body(x) + rest);
    NumberAt(bs, 0, wire, Body(x) + rest);
    assert wire / 8 == x.field && wire % 8 == TypeOf(x);
  }

  /**
   The record at the front, for a message that knows the fields 1 to `known`: one it does not know
   is kept whole, and one it knows must be length-delimited.
   */
  lemma ItemRead(x: Item, rest: seq<byte>, known: nat)
    requires ValidItem(x) && |ItemBytes(x) + rest| < TWO_63
    ensures x.field >= 1
    ensures var bs, n := ItemBytes(x) + rest, |ItemBytes(x)|;
      var r := ReadRecord(bs, known);
      && (x.field > known ==> r == Ok(Unknown(n)))
      && (x.field <= known && !x.BytesItem? ==> r == Err(WrongWireType(TypeOf(x))))
      && (x.field <= known && x.BytesItem? ==>
            |x.payload| <= n && r == Ok(Known(x.field, n - |x.payload|, n)) && bs[n - |x.payload|..n] == x.payload)
      && bs[..n] == ItemBytes(x) && bs[n..] == rest
  {
    hide Skip, Varint, DecodeVarint;
    var bs := ItemBytes(x) + rest;
    TagRead(x, rest);
    if x.field > known {
      RecordSkipped(x, rest);
    } else if x.BytesItem? {
      var tag, size := Varint(8 * x.field + 2), Varint(|x.payload|);
      assert bs == tag + (size + (x.payload + rest));
      NumberAt(bs, |tag|, |x.payload|, x.payload + rest);
      Behind(bs, |tag| + |size|, x.payload, rest);
    }
  }

  /** Tags that no record begins with: the end of a group, field 0, and the two types that there are not. */
  lemma TagRefused(field: nat, wireType: nat, rest: seq<byte>, known: nat)
    requires field < 0x2000_0000 && wireType < 8
    ensures var r := ReadRecord(Varint(8 * field + wireType) + rest, known);
      && (wireType == 4 ==> r == Err(EndGroup))
      && (field == 0 && wireType != 4 ==> r == Err(IllegalTag(0)))
      && (field > known && wireType >= 6 ==> r == Err(IllegalWireType(wireType)))
  {
    hide Varint, DecodeVarint, Skip;
    var bs := Varint(8 * field + wireType) + rest;
    assert bs[0..] == bs;
    NumberAt(bs, 0, 8 * field + wireType, rest);
    assert (8 * field + wireType) / 8 == field && (8 * field + wireType) % 8 == wireType;
    if wireType >= 6 { TagAt(bs, 0, 0, field, wireType, rest); }
  }
}
