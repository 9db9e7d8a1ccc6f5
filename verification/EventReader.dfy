/** The reader of events as it runs: loops over the parser's events, and a map of anchors. */
module EventReader {
  import opened Options
  import opened Resolve
  import opened Tokens
  import opened Parser
  import opened ParserSafety
  import opened Composer
  import opened Documents
  import P = EventParser

  class EventReader {
    const lib: Library
    var events: seq<Event>      // those the parser still has to give
    var anchors: Anchors

    constructor (events: seq<Event>, lib: Library)
      ensures this.events == events && anchors == map[] && this.lib == lib
    {
      this.events, this.lib, anchors := events, lib, map[];
    }

    /** The reader is where the function is that it follows. */
    predicate Agrees(o: Result<Composed, Failure>, r: Result<Value, Failure>)
      reads this
    {
      match o
      case Err(e) => r == Err(e)
      case Ok(c) => r == Ok(c.value) && events == c.rest && anchors == c.anchors
    }

    method Next() returns (ev: Option<Event>)
      modifies this`events
      ensures old(events) == [] ==> ev == None && events == []
      ensures old(events) != [] ==> ev == Some(old(events)[0]) && events == old(events)[1..]
    {
      if events == [] {
        return None;
      }
      ev := Some(events[0]);
      events := events[1..];
    }

    method SetAnchor(anchor: string, v: Value)
      modifies this`anchors
      ensures anchors == Remember(old(anchors), anchor, v)
    {
      if |anchor| != 0 {
        anchors := anchors[anchor := v];
      }
    }

    method ReadValue(ev: Event) returns (r: Result<Value, Failure>)
      modifies this`events, this`anchors
      ensures Agrees(ParseValue(ev, old(events), old(anchors), lib), r)
      decreases |events|, 1
    {
      match ev
      case Alias(name) =>
        if name !in anchors {
          return Err(UnknownAlias(name));
        }
        r := Ok(anchors[name]);
      case Scalar(anchor, tag, text, implicit) =>
        var v := ScalarValue(text, tag, implicit, lib.numbers);
        if v.Err? {
          return Err(BadScalar(v.error));
        }
        SetAnchor(anchor, v.value);
        r := Ok(v.value);
      case SequenceStart(anchor, _) =>
        r := ReadSequence();
        if r.Ok? {
          SetAnchor(anchor, r.value);
        }
      case MappingStart(anchor, _) =>
        r := ReadMapping();
        if r.Ok? {
          SetAnchor(anchor, r.value);
        }
      case _ => r := Err(Unexpected(ev));
    }

    method ReadSequence() returns (r: Result<Value, Failure>)
      modifies this`events, this`anchors
      ensures Agrees(ParseSequence(old(events), old(anchors), [], lib), r)
      decreases |events|, 0
    {
      var vals: seq<Value> := [];
      while true
        invariant ParseSequence(events, anchors, vals, lib) == ParseSequence(old(events), old(anchors), [], lib)
        invariant |events| <= |old(events)|
        decreases |events|
      {
        var ev := Next();
        if ev.None? {
          return Err(ParserStopped);
        }
        if ev.value.SequenceEnd? {
          return Ok(VList(vals));
        }
        var val := ReadValue(ev.value);
        if val.Err? {
          return Err(val.error);
        }
        vals := vals + [val.value];
      }
    }

    method ReadMapping() returns (r: Result<Value, Failure>)
      modifies this`events, this`anchors
      ensures Agrees(ParseMapping(old(events), old(anchors), map[], lib), r)
      decreases |events|, 0
    {
      var vals: map<string, Value> := map[];
      while true
        invariant ParseMapping(events, anchors, vals, lib) == ParseMapping(old(events), old(anchors), map[], lib)
        invariant |events| <= |old(events)|
        decreases |events|
      {
        var keyEv := Next();
        if keyEv.None? {
          return Err(ParserStopped);
        }
        if keyEv.value.MappingEnd? {
          return Ok(VObject(vals));
        }
        var keyVal := ReadValue(keyEv.value);
        if keyVal.Err? {
          return Err(keyVal.error);
        }
        var key := KeyString(keyVal.value, lib);
        if key.Err? {
          return Err(key.error);
        }
        var valEv := Next();
        if valEv.None? {
          return Err(ParserStopped);
        }
        var val := ReadValue(valEv.value);
        if val.Err? {
          return Err(val.error);
        }
        vals := vals[key.value := val.value];
      }
    }
  }

  /** The value of a token stream: parsed, and read; no event is ever unexpected. */
  method ReadTokens(tokens: seq<Token>, lib: Library) returns (r: Result<Value, Failure>)
    ensures Good(StartMachine(tokens))
    ensures r == ReadDocument(ParseAll(StartMachine(tokens)).events, lib)
    ensures r.Err? ==> !r.error.Unexpected?
  {
    hide ParseAll, ParseValue, Good;
    NothingUnexpected(tokens, lib);
    var events, _ := P.AllEvents(tokens);
    if |events| == 0 {
      return Err(ParserStopped);
    }
    if !events[0].StreamStart? {
      return Err(Unexpected(events[0]));
    }
    if |events| == 1 {
      return Err(ParserStopped);
    }
    if events[1].StreamEnd? {
      return Ok(VNull);
    }
    if !events[1].DocumentStart? {
      return Err(Unexpected(events[1]));
    }
    if |events| == 2 {
      return Err(ParserStopped);
    }
    if events[2].DocumentEnd? {
      return Ok(VNull);
    }
    var reader := new EventReader(events[3..], lib);
    r := reader.ReadValue(events[2]);
    if r.Err? {
      return;
    }
    var end := reader.Next();
    if end.None? {
      return Err(ParserStopped);
    }
    if !end.value.DocumentEnd? {
      r := Err(Unexpected(end.value));
    }
  }
}
