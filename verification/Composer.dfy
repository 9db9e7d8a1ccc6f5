/**
 From events to values: the recursive reader over the parser's events, with its anchors, and
 the tree that a run of events denotes.
 */
module Composer {
  import opened Options
  import opened Resolve
  import opened Tokens

  /** The library calls of the reader: numbers, and the printing of keys that are no strings. */
  datatype Library = Library(numbers: Numbers, formatFloat: real -> string, marshal: Value -> Option<string>)

  datatype Failure =
    | UnknownAlias(name: string)
    | BadScalar(error: ResolveError)
    | BadKey
    | Unexpected(event: Event)
    | ParserStopped           // the parser reports an error instead of an event

  type Anchors = map<string, Value>

  datatype Composed = Composed(value: Value, rest: seq<Event>, anchors: Anchors)

  function Digits(n: nat): string {
    if n < 10 then [('0' as int + n) as char] else Digits(n / 10) + [('0' as int + n % 10) as char]
  }

  function Decimal(n: int): string {
    if n < 0 then "-" + Digits(-n) else Digits(n)
  }

  function KeyString(v: Value, lib: Library): Result<string, Failure> {
    match v
    case VNull => Ok("null")
    case VBool(b) => Ok(if b then "true" else "false")
    case VInt(n) => Ok(Decimal(n))
    case VFloat(x) => Ok((lib.formatFloat)(x))
    case VString(s) => Ok(s)
    case _ =>
      match (lib.marshal)(v)
      case Some(s) => Ok(s)
      case None => Err(BadKey)
  }

  function Remember(anchors: Anchors, anchor: string, v: Value): Anchors {
    if anchor == "" then anchors else anchors[anchor := v]
  }

  /** The value that begins with `ev`; `rest` are the events behind it. */
  function ParseValue(ev: Event, rest: seq<Event>, anchors: Anchors, lib: Library): (r: Result<Composed, Failure>)
    ensures r.Ok? ==> |r.value.rest| <= |rest|
    decreases |rest|, 1
  {
    match ev
    case Alias(name) =>
      if name in anchors then Ok(Composed(anchors[name], rest, anchors)) else Err(UnknownAlias(name))
    case Scalar(anchor, tag, text, implicit) =>
      (match ScalarValue(text, tag, implicit, lib.numbers)
       case Err(e) => Err(BadScalar(e))
       case Ok(v) => Ok(Composed(v, rest, Remember(anchors, anchor, v))))
    case SequenceStart(anchor, _) =>
      (match ParseSequence(rest, anchors, [], lib)
       case Err(e) => Err(e)
       case Ok(c) => Ok(c.(anchors := Remember(c.anchors, anchor, c.value))))
    case MappingStart(anchor, _) =>
      (match ParseMapping(rest, anchors, map[], lib)
       case Err(e) => Err(e)
       case Ok(c) => Ok(c.(anchors := Remember(c.anchors, anchor, c.value))))
    case _ => Err(Unexpected(ev))
  }

  function ParseSequence(events: seq<Event>, anchors: Anchors, vals: seq<Value>, lib: Library)
    : (r: Result<Composed, Failure>)
    ensures r.Ok? ==> |r.value.rest| <= |events|
    decreases |events|, 0
  {
    if events == [] then Err(ParserStopped)
    else if events[0].SequenceEnd? then Ok(Composed(VList(vals), events[1..], anchors))
    else
      match ParseValue(events[0], events[1..], anchors, lib)
      case Err(e) => Err(e)
      case Ok(c) => ParseSequence(c.rest, c.anchors, vals + [c.value], lib)
  }

  function ParseMapping(events: seq<Event>, anchors: Anchors, vals: map<string, Value>, lib: Library)
    : (r: Result<Composed, Failure>)
    ensures r.Ok? ==> |r.value.rest| <= |events|
    decreases |events|, 0
  {
    if events == [] then Err(ParserStopped)
    else if events[0].MappingEnd? then Ok(Composed(VObject(vals), events[1..], anchors))
    else
      match ParseValue(events[0], events[1..], anchors, lib)
      case Err(e) => Err(e)
      case Ok(k) =>
        match KeyString(k.value, lib)
        case Err(e) => Err(e)
        case Ok(key) =>
          if k.rest == [] then Err(ParserStopped)
          else
            match ParseValue(k.rest[0], k.rest[1..], k.anchors, lib)
            case Err(e) => Err(e)
            case Ok(c) => ParseMapping(c.rest, c.anchors, vals[key := c.value], lib)
  }

  /** The value of the first document of a stream; no document is null. */
  function ReadDocument(events: seq<Event>, lib: Library): Result<Value, Failure> {
    if events == [] then Err(ParserStopped)
    else if !events[0].StreamStart? then Err(Unexpected(events[0]))
    else if |events| == 1 then Err(ParserStopped)
    else if events[1].StreamEnd? then Ok(VNull)
    else if !events[1].DocumentStart? then Err(Unexpected(events[1]))
    else if |events| == 2 then Err(ParserStopped)
    else if events[2].DocumentEnd? then Ok(VNull)
    else
      match ParseValue(events[2], events[3..], map[], lib)
      case Err(e) => Err(e)
      case Ok(c) =>
        if c.rest == [] then Err(ParserStopped)
        else if c.rest[0].DocumentEnd? then Ok(c.value)
        else Err(Unexpected(c.rest[0]))
  }

  // ---------- the tree that events denote ----------

  datatype Node =
    | AliasNode(name: string)
    | ScalarNode(anchor: string, tag: string, text: string, implicit: bool)
    | SequenceNode(anchor: string, tag: string, items: seq<Node>)
    | MappingNode(anchor: string, tag: string, pairs: seq<Pair>)

  datatype Pair = Pair(key: Node, value: Node)

  function NodeEvents(n: Node): (es: seq<Event>)
    ensures es != []
    decreases n, 1
  {
    match n
    case AliasNode(name) => [Alias(name)]
    case ScalarNode(anchor, tag, text, implicit) => [Scalar(anchor, tag, text, implicit)]
    case SequenceNode(anchor, tag, items) => [SequenceStart(anchor, tag)] + ItemEvents(items) + [SequenceEnd]
    case MappingNode(anchor, tag, pairs) => [MappingStart(anchor, tag)] + PairEvents(pairs) + [MappingEnd]
  }

  function ItemEvents(items: seq<Node>): seq<Event>
    decreases items, 0
  {
    if items == [] then [] else NodeEvents(items[0]) + ItemEvents(items[1..])
  }

  function PairEvents(pairs: seq<Pair>): seq<Event>
    decreases pairs, 0
  {
    if pairs == [] then [] else OnePairEvents(pairs[0]) + PairEvents(pairs[1..])
  }

  function OnePairEvents(p: Pair): seq<Event>
    decreases p, 2
  {
    NodeEvents(p.key) + NodeEvents(p.value)
  }

  datatype Denoted = Denoted(value: Value, anchors: Anchors)

  /** The meaning of a tree: an alias stands for the last value given that anchor before it. */
  function Denote(n: Node, anchors: Anchors, lib: Library): Result<Denoted, Failure>
    decreases n, 1
  {
    match n
    case AliasNode(name) =>
      if name in anchors then Ok(Denoted(anchors[name], anchors)) else Err(UnknownAlias(name))
    case ScalarNode(anchor, tag, text, implicit) =>
      (match ScalarValue(text, tag, implicit, lib.numbers)
       case Err(e) => Err(BadScalar(e))
       case Ok(v) => Ok(Denoted(v, Remember(anchors, anchor, v))))
    case SequenceNode(anchor, _, items) =>
      (match DenoteItems(items, anchors, lib)
       case Err(e) => Err(e)
       case Ok((vals, after)) => Ok(Denoted(VList(vals), Remember(after, anchor, VList(vals)))))
    case MappingNode(anchor, _, pairs) =>
      (match DenotePairs(pairs, anchors, map[], lib)
       case Err(e) => Err(e)
       case Ok(d) => Ok(d.(anchors := Remember(d.anchors, anchor, d.value))))
  }

  function DenoteItems(items: seq<Node>, anchors: Anchors, lib: Library): Result<(seq<Value>, Anchors), Failure>
    decreases items, 0
  {
    if items == [] then Ok(([], anchors))
    else
      match Denote(items[0], anchors, lib)
      case Err(e) => Err(e)
      case Ok(d) =>
        match DenoteItems(items[1..], d.anchors, lib)
        case Err(e) => Err(e)
        case Ok((vals, after)) => Ok(([d.value] + vals, after))
  }

  /** A key given twice keeps its last value. */
  function DenotePairs(pairs: seq<Pair>, anchors: Anchors, vals: map<string, Value>, lib: Library)
    : Result<Denoted, Failure>
    decreases pairs, 0
  {
    if pairs == [] then Ok(Denoted(VObject(vals), anchors))
    else
      match DenotePair(pairs[0], anchors, lib)
      case Err(e) => Err(e)
      case Ok((key, d)) => DenotePairs(pairs[1..], d.anchors, vals[key := d.value], lib)
  }

  function DenotePair(p: Pair, anchors: Anchors, lib: Library): Result<(string, Denoted), Failure>
    decreases p, 2
  {
    match Denote(p.key, anchors, lib)
    case Err(e) => Err(e)
    case Ok(k) =>
      match KeyString(k.value, lib)
      case Err(e) => Err(e)
      case Ok(key) =>
        match Denote(p.value, k.anchors, lib)
        case Err(e) => Err(e)
        case Ok(d) => Ok((key, d))
  }

  function AndThen(r: Result<Denoted, Failure>, rest: seq<Event>): Result<Composed, Failure> {
    match r
    case Err(e) => Err(e)
    case Ok(d) => Ok(Composed(d.value, rest, d.anchors))
  }

  function AfterItems(r: Result<(seq<Value>, Anchors), Failure>, vals: seq<Value>, rest: seq<Event>)
    : Result<Composed, Failure>
  {
    match r
    case Err(e) => Err(e)
    case Ok((more, anchors)) => Ok(Composed(VList(vals + more), rest, anchors))
  }

  /** Reading the events of a tree gives what the tree denotes, and takes just those events. */
  lemma {:induction false} ValueOfNode(n: Node, rest: seq<Event>, anchors: Anchors, lib: Library)
    ensures ParseValue(NodeEvents(n)[0], NodeEvents(n)[1..] + rest, anchors, lib)
         == AndThen(Denote(n, anchors, lib), rest)
    decreases n, 1
  {
    match n
    case SequenceNode(_, _, items) =>
      assert NodeEvents(n)[1..] + rest == ItemEvents(items) + ([SequenceEnd] + rest);
      ItemsOfNode(items, rest, anchors, [], lib);
      assert DenoteItems(items, anchors, lib).Ok? ==>
        [] + DenoteItems(items, anchors, lib).value.0 == DenoteItems(items, anchors, lib).value.0;
    case MappingNode(_, _, pairs) =>
      assert NodeEvents(n)[1..] + rest == PairEvents(pairs) + ([MappingEnd] + rest);
      PairsOfNode(pairs, rest, anchors, map[], lib);
    case AliasNode(_) => assert NodeEvents(n)[1..] + rest == rest;
    case ScalarNode(_, _, _, _) => assert NodeEvents(n)[1..] + rest == rest;
  }

  /** ValueOfNode for a node at the front of the events. */
  lemma {:induction false} FirstNode(n: Node, events: seq<Event>, rest: seq<Event>, anchors: Anchors, lib: Library)
    requires events == NodeEvents(n) + rest
    ensures events != [] && !events[0].SequenceEnd? && !events[0].MappingEnd? && !events[0].DocumentEnd?
    ensures ParseValue(events[0], events[1..], anchors, lib) == AndThen(Denote(n, anchors, lib), rest)
    decreases n, 2
  {
    hide ParseValue;
    assert events[1..] == NodeEvents(n)[1..] + rest;
    ValueOfNode(n, rest, anchors, lib);
  }

  lemma {:induction false} ItemsOfNode(items: seq<Node>, rest: seq<Event>, anchors: Anchors,
                                       vals: seq<Value>, lib: Library)
    ensures ParseSequence(ItemEvents(items) + ([SequenceEnd] + rest), anchors, vals, lib)
         == AfterItems(DenoteItems(items, anchors, lib), vals, rest)
    decreases items, 0
  {
    hide NodeEvents, ParseValue, Denote;
    var end := [SequenceEnd] + rest;
    if items == [] {
      assert ItemEvents(items) + end == end;
      assert vals + [] == vals;
    } else {
      var tail := ItemEvents(items[1..]) + end;
      var all := ItemEvents(items) + end;
      assert all == NodeEvents(items[0]) + tail;
      FirstNode(items[0], all, tail, anchors, lib);
      if Denote(items[0], anchors, lib).Ok? {
        var d := Denote(items[0], anchors, lib).value;
        ItemsOfNode(items[1..], rest, d.anchors, vals + [d.value], lib);
        if DenoteItems(items[1..], d.anchors, lib).Ok? {
          var more := DenoteItems(items[1..], d.anchors, lib).value.0;
          assert vals + [d.value] + more == vals + ([d.value] + more);
        }
      }
    }
  }

  /** A key and its value at the front of the events of a mapping. */
  lemma {:induction false} PairOfNode(p: Pair, events: seq<Event>, rest: seq<Event>, anchors: Anchors,
                                      vals: map<string, Value>, lib: Library)
    requires events == OnePairEvents(p) + rest
    ensures ParseMapping(events, anchors, vals, lib)
         == match DenotePair(p, anchors, lib)
            case Err(e) => Err(e)
            case Ok((key, d)) => ParseMapping(rest, d.anchors, vals[key := d.value], lib)
    decreases p, 3
  {
    hide NodeEvents, ParseValue, Denote, KeyString;
    var tail := NodeEvents(p.value) + rest;
    assert events == NodeEvents(p.key) + tail;
    FirstNode(p.key, events, tail, anchors, lib);
    if Denote(p.key, anchors, lib).Ok? {
      var k := Denote(p.key, anchors, lib).value;
      FirstNode(p.value, tail, rest, k.anchors, lib);
    }
  }

  lemma {:induction false} PairsOfNode(pairs: seq<Pair>, rest: seq<Event>, anchors: Anchors,
                                       vals: map<string, Value>, lib: Library)
    ensures ParseMapping(PairEvents(pairs) + ([MappingEnd] + rest), anchors, vals, lib)
         == AndThen(DenotePairs(pairs, anchors, vals, lib), rest)
    decreases pairs, 0
  {
    hide ParseValue, DenotePair, OnePairEvents;
    var end := [MappingEnd] + rest;
    if pairs == [] {
      assert PairEvents(pairs) + end == end;
    } else {
      var all, tail := PairEvents(pairs) + end, PairEvents(pairs[1..]) + end;
      assert all == OnePairEvents(pairs[0]) + tail;
      PairOfNode(pairs[0], all, tail, anchors, vals, lib);
      if DenotePair(pairs[0], anchors, lib).Ok? {
        var (key, d) := DenotePair(pairs[0], anchors, lib).value;
        PairsOfNode(pairs[1..], rest, d.anchors, vals[key := d.value], lib);
      }
    }
  }
}
