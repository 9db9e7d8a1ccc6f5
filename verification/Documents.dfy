/**
 The parser and the reader together: on the events of any tokens, the reader never meets an
 event it does not expect, and what it returns is what the events denote.
 */
module Documents {
  import opened Options
  import opened Resolve
  import opened Tokens
  import opened Parser
  import opened ParserSafety
  import opened Composer

  /** The open parts once the node that is due has been read. */
  function NodeDone(open: seq<Frame>): seq<Frame>
    requires open != []
  {
    open[..|open| - 1] + [AfterNode(open[|open| - 1])]
  }

  predicate StartsNode(e: Event) {
    e.Alias? || e.Scalar? || e.SequenceStart? || e.MappingStart?
  }

  /** A node may come next, and what comes is allowed. */
  predicate NodeNext(open: seq<Frame>, events: seq<Event>) {
    && open != [] && TakesNode(open[|open| - 1])
    && events != [] && StartsNode(events[0])
  }

  /** What is open after the first event of a node. */
  lemma NodeOpened(open: seq<Frame>, events: seq<Event>)
    requires NodeNext(open, events)
    ensures events[0].SequenceStart? ==> Brackets(open, events) == Brackets(NodeDone(open) + [InSequence], events[1..])
    ensures events[0].MappingStart? ==> Brackets(open, events) == Brackets(NodeDone(open) + [KeyNext], events[1..])
    ensures events[0].Alias? || events[0].Scalar? ==> Brackets(open, events) == Brackets(NodeDone(open), events[1..])
  {
    InnerOpen(open, InSequence);
    InnerOpen(open, KeyNext);
  }

  lemma InnerOpen(open: seq<Frame>, f: Frame)
    requires open != []
    ensures NodeDone(open) + [f] == open[..|open| - 1] + [AfterNode(open[|open| - 1]), f]
    ensures (NodeDone(open) + [f])[..|open|] == NodeDone(open)
  {
  }

  /** Where a node may come next, it comes, or the end of the collection around it. */
  lemma NodeOrEnd(open: seq<Frame>, events: seq<Event>)
    requires Brackets(open, events).Some? && open != [] && TakesNode(open[|open| - 1]) && events != []
    ensures var top := open[|open| - 1];
      || StartsNode(events[0])
      || (events[0].SequenceEnd? && top == InSequence)
      || (events[0].MappingEnd? && top == KeyNext)
    ensures !StartsNode(events[0]) ==> Brackets(open, events) == Brackets(open[..|open| - 1], events[1..])
  {
  }

  lemma EndNotYet(open: seq<Frame>, events: seq<Event>)
    requires Brackets(open, events) == Some([Finished]) && open != [] && TakesNode(open[|open| - 1])
    ensures events != []
  {
  }

  lemma KeyThenValue(open: seq<Frame>)
    requires open != [] && open[|open| - 1] == KeyNext
    ensures NodeDone(open) != [] && TakesNode(NodeDone(open)[|open| - 1]) && NodeDone(open)[|open| - 1] != KeyNext
    ensures NodeDone(open)[|open| - 1] != InSequence && |NodeDone(open)| == |open| && NodeDone(NodeDone(open)) == open
  {
  }

  // ---------- no unexpected event ----------

  /** The result is no complaint about an event, and the rest is well bracketed again. */
  predicate Proper(r: Result<Composed, Failure>, open: seq<Frame>) {
    match r
    case Err(e) => !e.Unexpected?
    case Ok(c) => Brackets(open, c.rest).Some?
  }

  lemma {:induction false} ValueProper(open: seq<Frame>, events: seq<Event>, anchors: Anchors, lib: Library)
    requires Brackets(open, events).Some? && NodeNext(open, events)
    ensures Proper(ParseValue(events[0], events[1..], anchors, lib), NodeDone(open))
    decreases |events|, 0
  {
    match events[0]
    case SequenceStart(_, _) =>
      InnerOpen(open, InSequence);
      SequenceProper(NodeDone(open) + [InSequence], events[1..], anchors, [], lib);
    case MappingStart(_, _) =>
      InnerOpen(open, KeyNext);
      MappingProper(NodeDone(open) + [KeyNext], events[1..], anchors, map[], lib);
    case _ =>
  }

  lemma {:induction false} SequenceProper(open: seq<Frame>, events: seq<Event>, anchors: Anchors,
                                          vals: seq<Value>, lib: Library)
    requires Brackets(open, events).Some? && open != [] && open[|open| - 1] == InSequence
    ensures Proper(ParseSequence(events, anchors, vals, lib), open[..|open| - 1])
    decreases |events|, 1
  {
    hide Brackets, Accept, ParseValue;
    if events != [] {
      NodeOrEnd(open, events);
    }
    if events != [] && !events[0].SequenceEnd? {
      ValueProper(open, events, anchors, lib);
      assert NodeDone(open) == open;
      var r := ParseValue(events[0], events[1..], anchors, lib);
      if r.Ok? {
        SequenceProper(open, r.value.rest, r.value.anchors, vals + [r.value.value], lib);
      }
    }
  }

  lemma {:induction false} MappingProper(open: seq<Frame>, events: seq<Event>, anchors: Anchors,
                                         vals: map<string, Value>, lib: Library)
    requires Brackets(open, events).Some? && open != [] && open[|open| - 1] == KeyNext
    ensures Proper(ParseMapping(events, anchors, vals, lib), open[..|open| - 1])
    decreases |events|, 1
  {
    hide Brackets, Accept, ParseValue, NodeDone;
    if events != [] {
      NodeOrEnd(open, events);
    }
    if events != [] && !events[0].MappingEnd? {
      ValueProper(open, events, anchors, lib);
      KeyThenValue(open);
      var k := ParseValue(events[0], events[1..], anchors, lib);
      if k.Ok? && KeyString(k.value.value, lib).Ok? && k.value.rest != [] {
        NodeOrEnd(NodeDone(open), k.value.rest);
        ValueProper(NodeDone(open), k.value.rest, k.value.anchors, lib);
        var r := ParseValue(k.value.rest[0], k.value.rest[1..], k.value.anchors, lib);
        if r.Ok? {
          var key := KeyString(k.value.value, lib).value;
          MappingProper(open, r.value.rest, r.value.anchors, vals[key := r.value.value], lib);
        }
      }
    }
  }

  /** Whatever the tokens, and wherever the parser stops, no event is unexpected. */
  lemma NothingUnexpected(tokens: seq<Token>, lib: Library)
    ensures Good(StartMachine(tokens))
    ensures var r := ReadDocument(ParseAll(StartMachine(tokens)).events, lib);
      r.Err? ==> !r.error.Unexpected?
  {
    hide ParseAll, ParseValue;
    AnyTokensParseSafely(tokens);
    var es := ParseAll(StartMachine(tokens)).events;
    if es != [] {
      assert Brackets([InStream], es[1..]).Some?;
      if |es| > 2 && es[1].DocumentStart? {
        assert es[1..][1..] == es[2..];
        assert Brackets([InStream, DocumentOpen], es[2..]).Some?;
        ValueProper([InStream, DocumentOpen], es[2..], map[], lib);
        assert es[2..][1..] == es[3..];
        assert NodeDone([InStream, DocumentOpen]) == [InStream, DocumentDone];
      }
    }
  }

  // ---------- the tree the brackets denote ----------

  lemma {:induction false} TakeNode(open: seq<Frame>, events: seq<Event>) returns (n: Node, rest: seq<Event>)
    requires Brackets(open, events) == Some([Finished]) && NodeNext(open, events)
    ensures events == NodeEvents(n) + rest
    ensures Brackets(NodeDone(open), rest) == Some([Finished])
    decreases |events|, 0
  {
    hide Brackets, Accept, NodeDone, ItemEvents, PairEvents;
    NodeOpened(open, events);
    match events[0]
    case Alias(name) => n, rest := AliasNode(name), events[1..];
    case Scalar(anchor, tag, text, implicit) => n, rest := ScalarNode(anchor, tag, text, implicit), events[1..];
    case SequenceStart(anchor, tag) =>
      InnerOpen(open, InSequence);
      var items, tail := TakeItems(NodeDone(open) + [InSequence], events[1..]);
      n, rest := SequenceNode(anchor, tag, items), tail;
    case MappingStart(anchor, tag) =>
      InnerOpen(open, KeyNext);
      var pairs, tail := TakePairs(NodeDone(open) + [KeyNext], events[1..]);
      n, rest := MappingNode(anchor, tag, pairs), tail;
  }

  lemma {:induction false} TakeItems(open: seq<Frame>, events: seq<Event>) returns (items: seq<Node>, rest: seq<Event>)
    requires Brackets(open, events) == Some([Finished]) && open != [] && open[|open| - 1] == InSequence
    ensures events == ItemEvents(items) + [SequenceEnd] + rest
    ensures Brackets(open[..|open| - 1], rest) == Some([Finished])
    decreases |events|, 1
  {
    if events[0].SequenceEnd? {
      items, rest := [], events[1..];
    } else {
      var n, tail := TakeNode(open, events);
      assert NodeDone(open) == open;
      var more, after := TakeItems(open, tail);
      items, rest := [n] + more, after;
      assert items[1..] == more;
    }
  }

  lemma {:induction false} TakePairs(open: seq<Frame>, events: seq<Event>) returns (pairs: seq<Pair>, rest: seq<Event>)
    requires Brackets(open, events) == Some([Finished]) && open != [] && open[|open| - 1] == KeyNext
    ensures events == PairEvents(pairs) + [MappingEnd] + rest
    ensures Brackets(open[..|open| - 1], rest) == Some([Finished])
    decreases |events|, 1
  {
    hide NodeEvents, Brackets, Accept, NodeDone;
    EndNotYet(open, events);
    NodeOrEnd(open, events);
    if events[0].MappingEnd? {
      pairs, rest := [], events[1..];
    } else {
      KeyThenValue(open);
      var k, tail := TakeNode(open, events);
      EndNotYet(NodeDone(open), tail);
      NodeOrEnd(NodeDone(open), tail);
      var v, tail2 := TakeNode(NodeDone(open), tail);
      var more, after := TakePairs(open, tail2);
      pairs, rest := [Pair(k, v)] + more, after;
      assert pairs[1..] == more;
      assert OnePairEvents(Pair(k, v)) == NodeEvents(k) + NodeEvents(v);
    }
  }

  /**
   The events of a stream without errors are those of a tree between brackets, or of no
   document; and the reader returns what that tree denotes.
   */
  lemma ReadIsDenotation(tokens: seq<Token>, lib: Library) returns (root: Option<Node>)
    requires Good(StartMachine(tokens)) && ParseAll(StartMachine(tokens)).finish.Complete?
    ensures var es := ParseAll(StartMachine(tokens)).events;
      match root
      case None => es == [StreamStart, StreamEnd] && ReadDocument(es, lib) == Ok(VNull)
      case Some(n) =>
        && [StreamStart, DocumentStart] + NodeEvents(n) + [DocumentEnd] <= es
        && ReadDocument(es, lib) == ValueIn(Denote(n, map[], lib))
  {
    hide ParseAll, Denote;
    AnyTokensParseSafely(tokens);
    var es := ParseAll(StartMachine(tokens)).events;
    if es[1].StreamEnd? {
      root := None;
      EndsThere(es);
    } else {
      var n, rest := RootNode(es);
      root := Some(n);
      ReadsRoot(es, n, rest, lib);
    }
  }

  function ValueIn(r: Result<Denoted, Failure>): Result<Value, Failure> {
    match r
    case Err(e) => Err(e)
    case Ok(d) => Ok(d.value)
  }

  lemma EndsThere(es: seq<Event>)
    requires Brackets([Opening], es) == Some([Finished]) && |es| >= 2 && es[1].StreamEnd?
    ensures es == [StreamStart, StreamEnd]
  {
    assert Brackets([InStream], es[1..]) == Some([Finished]);
    assert Brackets([Finished], es[1..][1..]) == Some([Finished]);
  }

  lemma RootOpens(es: seq<Event>)
    requires Brackets([Opening], es) == Some([Finished]) && |es| >= 2 && !es[1].StreamEnd?
    ensures es[0] == StreamStart && es[1] == DocumentStart
    ensures Brackets([InStream, DocumentOpen], es[2..]) == Some([Finished]) && es == es[..2] + es[2..]
  {
    assert Brackets([InStream], es[1..]) == Some([Finished]);
    assert es[1..][1..] == es[2..];
  }

  lemma RootDone(tail: seq<Event>)
    requires Brackets([InStream, DocumentDone], tail) == Some([Finished])
    ensures tail != [] && tail[0] == DocumentEnd
  {
  }

  lemma NodeIsDue(es: seq<Event>)
    requires Brackets([InStream, DocumentOpen], es) == Some([Finished])
    ensures NodeNext([InStream, DocumentOpen], es)
    ensures NodeDone([InStream, DocumentOpen]) == [InStream, DocumentDone]
  {
  }

  lemma RootNode(es: seq<Event>) returns (n: Node, rest: seq<Event>)
    requires Brackets([Opening], es) == Some([Finished]) && |es| >= 2 && !es[1].StreamEnd?
    ensures es == [StreamStart, DocumentStart] + NodeEvents(n) + ([DocumentEnd] + rest)
  {
    hide Brackets, Accept, NodeDone, NodeNext, NodeEvents;
    RootOpens(es);
    NodeIsDue(es[2..]);
    var tail;
    n, tail := TakeNode([InStream, DocumentOpen], es[2..]);
    RootDone(tail);
    rest := tail[1..];
    assert es[..2] == [StreamStart, DocumentStart] && tail == [DocumentEnd] + rest;
  }

  lemma ReadsRoot(es: seq<Event>, n: Node, rest: seq<Event>, lib: Library)
    requires es == [StreamStart, DocumentStart] + NodeEvents(n) + ([DocumentEnd] + rest)
    ensures ReadDocument(es, lib) == ValueIn(Denote(n, map[], lib))
  {
    hide ParseValue, Denote;
    FirstNode(n, es[2..], [DocumentEnd] + rest, map[], lib);
    assert es[2..][1..] == es[3..];
  }
}
