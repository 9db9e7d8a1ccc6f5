/**
 The directive messages record by record: what any sequence of fields, known and unknown, of
 every wire type and in any order, makes of a message; and which fields a message is written as.
 Field numbers are those of the messages' description.
 */
module MessageRecords {
  import opened Options
  import opened Unicode
  import opened Wire
  import opened WireRecords
  import opened DirectiveMessages

  // ---------- reading ----------

  /** ProtoDebugValue: key = 1, repeated values = 2. The last key stays. */
  function ValueFrom(m: DebugValue, items: seq<Item>): Result<DebugValue, WireError>
    decreases |items|
  {
    if items == [] then Ok(m)
    else
      match items[0]
      case BytesItem(1, payload) => ValueFrom(m.(key := payload), items[1..])
      case BytesItem(2, payload) => ValueFrom(m.(values := m.values + [payload]), items[1..])
      case x =>
        if x.field <= 2 then Err(WrongWireType(TypeOf(x)))
        else ValueFrom(m.(unknown := m.unknown + ItemBytes(x)), items[1..])
  }

  /** DirectiveInfo: name = 1, repeated debug_vals = 2. */
  function InfoFrom(m: Info, items: seq<Item>): Result<Info, WireError>
    decreases |items|
  {
    if items == [] then Ok(m)
    else
      match items[0]
      case BytesItem(1, payload) => InfoFrom(m.(name := payload), items[1..])
      case BytesItem(2, payload) =>
        (match UnmarshalValue(EMPTY_VALUE, payload)
         case Err(e) => Err(e)
         case Ok(v) => InfoFrom(m.(debugVals := m.debugVals + [Some(v)]), items[1..]))
      case x =>
        if x.field <= 2 then Err(WrongWireType(TypeOf(x)))
        else InfoFrom(m.(unknown := m.unknown + ItemBytes(x)), items[1..])
  }

  /** DirectiveState: info = 1. An info that comes again is merged into the one there is. */
  function StateFrom(m: State, items: seq<Item>): Result<State, WireError>
    decreases |items|
  {
    if items == [] then Ok(m)
    else
      match items[0]
      case BytesItem(1, payload) =>
        (match UnmarshalInfo(InfoOrEmpty(m), payload)
         case Err(e) => Err(e)
         case Ok(info) => StateFrom(m.(info := Some(info)), items[1..]))
      case x =>
        if x.field <= 1 then Err(WrongWireType(TypeOf(x)))
        else StateFrom(m.(unknown := m.unknown + ItemBytes(x)), items[1..])
  }

  /** A debug value is read as its records say; the first field of a wrong type is the error. */
  lemma {:induction false} ValueRead(m: DebugValue, items: seq<Item>)
    requires ValidItems(items) && |ItemsBytes(items)| < TWO_63
    ensures UnmarshalValue(m, ItemsBytes(items)) == ValueFrom(m, items)
    decreases |items|
  {
    hide ItemBytes, ReadRecord, ValidItem;
    if items != [] {
      var x, rest := items[0], ItemsBytes(items[1..]);
      ItemRead(x, rest, 2);
      assert ItemsBytes(items) == ItemBytes(x) + rest && ItemsBytes(items) != [];
      forall m1 ensures UnmarshalValue(m1, ItemsBytes(items[1..])) == ValueFrom(m1, items[1..]) {
        ValueRead(m1, items[1..]);
      }
    }
  }

  lemma {:induction false} InfoRecords(m: Info, items: seq<Item>)
    requires ValidItems(items) && |ItemsBytes(items)| < TWO_63
    ensures UnmarshalInfo(m, ItemsBytes(items)) == InfoFrom(m, items)
    decreases |items|
  {
    hide ItemBytes, ReadRecord, ValidItem, UnmarshalValue;
    if items != [] {
      var x, rest := items[0], ItemsBytes(items[1..]);
      ItemRead(x, rest, 2);
      assert ItemsBytes(items) == ItemBytes(x) + rest && ItemsBytes(items) != [];
      forall m1 ensures UnmarshalInfo(m1, ItemsBytes(items[1..])) == InfoFrom(m1, items[1..]) {
        InfoRecords(m1, items[1..]);
      }
    }
  }

  lemma {:induction false} StateRecords(m: State, items: seq<Item>)
    requires ValidItems(items) && |ItemsBytes(items)| < TWO_63
    ensures UnmarshalState(m, ItemsBytes(items)) == StateFrom(m, items)
    decreases |items|
  {
    hide ItemBytes, ReadRecord, ValidItem, UnmarshalInfo;
    if items != [] {
      var x, rest := items[0], ItemsBytes(items[1..]);
      ItemRead(x, rest, 1);
      assert ItemsBytes(items) == ItemBytes(x) + rest && ItemsBytes(items) != [];
      forall m1 ensures UnmarshalState(m1, ItemsBytes(items[1..])) == StateFrom(m1, items[1..]) {
        StateRecords(m1, items[1..]);
      }
    }
  }

  // ---------- writing ----------

  function StringItems(values: seq<Bytes>): seq<Item> {
    if values == [] then [] else [BytesItem(2, values[0])] + StringItems(values[1..])
  }

  /** An empty string is not written; a repeated field is written as often as it has elements. */
  function ValueItems(m: DebugValue): seq<Item> {
    (if m.key == [] then [] else [BytesItem(1, m.key)]) + StringItems(m.values)
  }

  function ElementItems(vals: seq<Option<DebugValue>>): seq<Item> {
    if vals == [] then []
    else
      var one := match vals[0]
                 case None => []
                 case Some(v) => ItemsBytes(ValueItems(v)) + v.unknown;
      [BytesItem(2, one)] + ElementItems(vals[1..])
  }

  function InfoItems(m: Info): seq<Item> {
    (if m.name == [] then [] else [BytesItem(1, m.name)]) + ElementItems(m.debugVals)
  }

  function StateItems(m: State): seq<Item> {
    match m.info
    case None => []
    case Some(info) => [BytesItem(1, ItemsBytes(InfoItems(info)) + info.unknown)]
  }

  lemma FieldIsItem(tag: byte, field: nat, payload: Bytes)
    requires 1 <= field <= 15 && tag == 8 * field + 2
    ensures Field(tag, payload) == ItemBytes(BytesItem(field, payload))
  {
    TagIsVarint(tag);
  }

  lemma FirstItem(x: Item, items: seq<Item>)
    ensures ItemsBytes([x] + items) == ItemBytes(x) + ItemsBytes(items)
  {
    assert ([x] + items)[1..] == items;
  }

  lemma {:induction false} StringsWritten(values: seq<Bytes>)
    ensures EncodeStrings(values) == ItemsBytes(StringItems(values))
  {
    hide Field, ItemBytes;
    if values != [] {
      FieldIsItem(TAG_2, 2, values[0]);
      FirstItem(BytesItem(2, values[0]), StringItems(values[1..]));
      StringsWritten(values[1..]);
    }
  }

  lemma NamedWritten(name: Bytes, items: seq<Item>)
    ensures OptionalField(TAG_1, name) + ItemsBytes(items)
         == ItemsBytes((if name == [] then [] else [BytesItem(1, name)]) + items)
  {
    hide Field, ItemBytes, ItemsBytes;
    if name == [] {
      NothingAdded([], items);
      NothingAdded([], ItemsBytes(items));
    } else {
      FieldIsItem(TAG_1, 1, name);
      FirstItem(BytesItem(1, name), items);
    }
  }

  /** A debug value is written as its fields, with the unknown ones behind them. */
  lemma ValueWritten(m: DebugValue)
    ensures EncodeValue(m) == ItemsBytes(ValueItems(m)) + m.unknown
  {
    hide OptionalField, EncodeStrings, StringItems, ItemsBytes;
    StringsWritten(m.values);
    NamedWritten(m.key, StringItems(m.values));
  }

  lemma {:induction false} ElementsWritten(vals: seq<Option<DebugValue>>)
    ensures EncodeValues(vals) == ItemsBytes(ElementItems(vals))
  {
    hide Field, ItemBytes, EncodeValue, ValueItems;
    if vals != [] {
      var one := EncodeElement(vals[0]);
      if vals[0].Some? { ValueWritten(vals[0].value); }
      FieldIsItem(TAG_2, 2, one);
      FirstItem(BytesItem(2, one), ElementItems(vals[1..]));
      ElementsWritten(vals[1..]);
    }
  }

  lemma InfoWritten(m: Info)
    ensures EncodeInfo(m) == ItemsBytes(InfoItems(m)) + m.unknown
  {
    hide OptionalField, EncodeValues, ElementItems, ItemsBytes;
    ElementsWritten(m.debugVals);
    NamedWritten(m.name, ElementItems(m.debugVals));
  }

  lemma StateWritten(m: State)
    ensures EncodeState(m) == ItemsBytes(StateItems(m)) + m.unknown
  {
    hide Field, ItemBytes, EncodeInfo, InfoItems;
    match m.info
    case None =>
    case Some(info) =>
      InfoWritten(info);
      FieldIsItem(TAG_1, 1, EncodeInfo(info));
      FirstItem(BytesItem(1, EncodeInfo(info)), []);
      NothingAdded(ItemBytes(BytesItem(1, EncodeInfo(info))), []);
      NothingAdded([BytesItem(1, EncodeInfo(info))], []);
  }
}
