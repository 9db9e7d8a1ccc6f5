/**
 The emitter on the events of a JSON document: whatever it holds back while it looks ahead,
 all of it is written in the end, what is written is the document's layout, and every node
 leaves the stacks as it found them.
 */
module EmitterRun {
  import opened Chars
  import opened Pens
  import opened Options
  import opened Resolve
  import opened Tokens
  import opened Layout
  import E = Emitter

  // ---------- the events of a document ----------

  function NodeEvents(tree: Tree, env: Env): (es: seq<E.EmitEvent>)
    ensures es != []
    decreases tree, 1
  {
    match tree
    case TList(items) => [E.SequenceStart(false)] + ItemEvents(items, env) + [E.SequenceEnd]
    case TObject(entries) => [E.MappingStart(false)] + EntryEvents(entries, env) + [E.MappingEnd]
    case _ => [E.Scalar(LeafText(tree), LeafStyle(tree, env))]
  }

  function ItemEvents(items: seq<Tree>, env: Env): seq<E.EmitEvent>
    decreases items, 0
  {
    if items == [] then [] else NodeEvents(items[0], env) + ItemEvents(items[1..], env)
  }

  function KeyEvent(key: string, env: Env): E.EmitEvent {
    E.Scalar(key, (env.styleOf)(key))
  }

  function EntryEvents(entries: seq<Entry>, env: Env): seq<E.EmitEvent>
    decreases entries, 0
  {
    if entries == [] then []
    else [KeyEvent(entries[0].key, env)] + NodeEvents(entries[0].value, env) + EntryEvents(entries[1..], env)
  }

  function DocumentEvents(tree: Tree, env: Env): seq<E.EmitEvent> {
    [E.StreamStart, E.DocumentStart(true)] + NodeEvents(tree, env) + [E.DocumentEnd(true), E.StreamEnd]
  }

  // ---------- looking ahead changes nothing ----------

  /** All events dispatched with every later one in sight. */
  function Play(m: E.Machine, q: seq<E.EmitEvent>, cfg: Config): E.Outcome
    requires ValidConfig(cfg)
    decreases |q|
  {
    if q == [] then E.Done(m)
    else
      match E.Dispatch(m, q, cfg)
      case Done(next) => Play(next, q[1..], cfg)
      case other => other
  }

  lemma NodeStable(m: E.Machine, q: seq<E.EmitEvent>, more: seq<E.EmitEvent>, root: bool, simpleKey: bool, cfg: Config)
    requires ValidConfig(cfg) && !E.NeedMoreEvents(q)
    ensures E.EmitNode(m, q, root, simpleKey, cfg) == E.EmitNode(m, q + more, root, simpleKey, cfg)
    ensures E.CheckSimpleKey(q) == E.CheckSimpleKey(q + more)
  {
    hide E.EmitScalarEvent;
    assert (q + more)[0] == q[0];
    if q[0].SequenceStart? || q[0].MappingStart? {
      assert |q| >= 2 by { OneClosesNothing(q); }
      assert (q + more)[1] == q[1];
    }
  }

  /** What is dispatched has all the events behind it that it asks for. */
  lemma DispatchStable(m: E.Machine, q: seq<E.EmitEvent>, more: seq<E.EmitEvent>, cfg: Config)
    requires ValidConfig(cfg) && !E.NeedMoreEvents(q)
    ensures E.Dispatch(m, q, cfg) == E.Dispatch(m, q + more, cfg)
  {
    hide E.EmitNode, E.CheckSimpleKey, E.LeaveFlow, E.ReturnIndent, E.FlowGap, E.Increase, E.NewLine, E.Write;
    assert (q + more)[0] == q[0];
    forall m1: E.Machine, root, simpleKey
      ensures E.EmitNode(m1, q, root, simpleKey, cfg) == E.EmitNode(m1, q + more, root, simpleKey, cfg)
    {
      NodeStable(m1, q, more, root, simpleKey, cfg);
    }
    NodeStable(m, q, more, false, false, cfg);
  }

  lemma OneClosesNothing(q: seq<E.EmitEvent>)
    requires q != [] && E.Starts(q[0])
    ensures |q| == 1 ==> !E.Closes(q, 0, 0)
  {
  }

  function AndPlay(r: Result<E.Queued, E.Outcome>, more: seq<E.EmitEvent>, cfg: Config): E.Outcome
    requires ValidConfig(cfg)
  {
    match r
    case Err(o) => o
    case Ok(e) => Play(e.machine, e.queue + more, cfg)
  }

  lemma {:induction false} DrainPlays(m: E.Machine, q: seq<E.EmitEvent>, more: seq<E.EmitEvent>, cfg: Config)
    requires ValidConfig(cfg)
    ensures AndPlay(E.Drain(m, q, cfg), more, cfg) == Play(m, q + more, cfg)
    ensures var r := E.Drain(m, q, cfg);
      r.Ok? ==> E.NeedMoreEvents(r.value.queue) && SuffixOf(r.value.queue, q)
    decreases |q|
  {
    hide E.Dispatch;
    assert q == q[0..];
    if !E.NeedMoreEvents(q) {
      DispatchStable(m, q, more, cfg);
      assert (q + more)[1..] == q[1..] + more;
      match E.Dispatch(m, q, cfg)
      case Done(next) =>
        DrainPlays(next, q[1..], more, cfg);
        SuffixTail(E.Drain(m, q, cfg), q);
      case _ =>
    }
  }

  ghost predicate SuffixOf(s: seq<E.EmitEvent>, q: seq<E.EmitEvent>) {
    |s| <= |q| && s == q[|q| - |s|..]
  }

  lemma SuffixTail(r: Result<E.Queued, E.Outcome>, q: seq<E.EmitEvent>)
    requires q != [] && (r.Ok? ==> SuffixOf(r.value.queue, q[1..]))
    ensures r.Ok? ==> SuffixOf(r.value.queue, q)
  {
  }

  /**
   Handing the emitter its events one by one, with its lookahead of one, two or three events,
   comes to the same as dispatching each with the whole stream in sight.
   */
  lemma {:induction false} QueueIsInvisible(e: E.Queued, events: seq<E.EmitEvent>, cfg: Config)
    requires ValidConfig(cfg)
    ensures AndPlay(E.EmitAll(e, events, cfg), [], cfg) == Play(e.machine, e.queue + events, cfg)
    ensures var r := E.EmitAll(e, events, cfg);
      r.Ok? ==> (events != [] ==> E.NeedMoreEvents(r.value.queue)) && SuffixOf(r.value.queue, e.queue + events)
    decreases |events|
  {
    hide E.Dispatch, E.NeedMoreEvents, Play;
    if events == [] {
    } else {
      var q := e.queue + [events[0]];
      DrainPlays(e.machine, q, events[1..], cfg);
      assert q + events[1..] == e.queue + events;
      match E.Emit(e, events[0], cfg) {
        case Err(_) =>
        case Ok(e1) =>
          QueueIsInvisible(e1, events[1..], cfg);
          SuffixAppend(e1.queue, q, events[1..]);
          var r := E.EmitAll(e1, events[1..], cfg);
          if r.Ok? {
            SuffixTrans(r.value.queue, e1.queue + events[1..], e.queue + events);
          }
      }
    }
  }

  lemma SuffixAppend(s: seq<E.EmitEvent>, q: seq<E.EmitEvent>, more: seq<E.EmitEvent>)
    requires SuffixOf(s, q)
    ensures SuffixOf(s + more, q + more)
  {
  }

  lemma SuffixTrans(a: seq<E.EmitEvent>, b: seq<E.EmitEvent>, c: seq<E.EmitEvent>)
    requires SuffixOf(a, b) && SuffixOf(b, c)
    ensures SuffixOf(a, c)
  {
  }

  // ---------- trees ----------

  /** From m the events in front of `tail` are dispatched, and the emitter is at m1. */
  predicate Plays(m: E.Machine, events: seq<E.EmitEvent>, tail: seq<E.EmitEvent>, m1: E.Machine, cfg: Config)
    requires ValidConfig(cfg)
    decreases |events|
  {
    if events == [] then m == m1
    else
      match E.Dispatch(m, events + tail, cfg)
      case Done(next) => Plays(next, events[1..], tail, m1, cfg)
      case _ => false
  }

  /** The outcome of dispatching the first of these events. */
  predicate Begins(o: E.Outcome, events: seq<E.EmitEvent>, tail: seq<E.EmitEvent>, m1: E.Machine, cfg: Config)
    requires ValidConfig(cfg)
  {
    o.Done? && events != [] && Plays(o.next, events[1..], tail, m1, cfg)
  }

  lemma {:induction false} PlaysOn(m: E.Machine, a: seq<E.EmitEvent>, m1: E.Machine, b: seq<E.EmitEvent>,
                                   m2: E.Machine, tail: seq<E.EmitEvent>, cfg: Config)
    requires ValidConfig(cfg) && Plays(m, a, b + tail, m1, cfg) && Plays(m1, b, tail, m2, cfg)
    ensures Plays(m, a + b, tail, m2, cfg)
    decreases |a|
  {
    hide E.Dispatch;
    if a == [] {
      assert a + b == b;
    } else {
      assert a + b + tail == a + (b + tail);
      assert (a + b)[1..] == a[1..] + b;
      PlaysOn(E.Dispatch(m, a + (b + tail), cfg).next, a[1..], m1, b, m2, tail, cfg);
    }
  }

  lemma BeginsOn(o: E.Outcome, a: seq<E.EmitEvent>, m1: E.Machine, b: seq<E.EmitEvent>,
                 m2: E.Machine, tail: seq<E.EmitEvent>, cfg: Config)
    requires ValidConfig(cfg) && Begins(o, a, b + tail, m1, cfg) && Plays(m1, b, tail, m2, cfg)
    ensures Begins(o, a + b, tail, m2, cfg)
  {
    hide E.Dispatch;
    assert (a + b)[1..] == a[1..] + b;
    PlaysOn(o.next, a[1..], m1, b, m2, tail, cfg);
  }

  lemma {:induction false} PlaysIsPlay(m: E.Machine, events: seq<E.EmitEvent>, m1: E.Machine, cfg: Config)
    requires ValidConfig(cfg) && Plays(m, events, [], m1, cfg)
    ensures Play(m, events, cfg) == E.Done(m1)
    decreases |events|
  {
    hide E.Dispatch;
    if events != [] {
      assert events + [] == events;
      PlaysIsPlay(E.Dispatch(m, events, cfg).next, events[1..], m1, cfg);
    }
  }

  /** The emitter once a node has been written: as it was, in the state that was pushed. */
  function Returned(m: E.Machine, pen: Pen): E.Machine
    requires m.states != []
  {
    var last := |m.states| - 1;
    m.(state := m.states[last], states := m.states[..last], pen := pen)
  }

  function ReturnedIndent(m: E.Machine, pen: Pen): E.Machine
    requires m.states != [] && m.indents != []
  {
    var last := |m.indents| - 1;
    Returned(m.(indent := m.indents[last], indents := m.indents[..last]), pen)
  }

  lemma ReturnedPushed(m: E.Machine, s: E.EmitState, p: Pen, q: Pen)
    ensures Returned(E.Push(m.(pen := p), s), q) == m.(state := s, pen := q)
  {
    assert (m.states + [s])[..|m.states|] == m.states;
  }

  lemma ReturnedEntered(m: E.Machine, s: E.EmitState, cfg: Config, pen: Pen)
    requires ValidConfig(cfg) && m.states != []
    ensures ReturnedIndent(E.EnterBlock(m, s, cfg), pen) == Returned(m, pen)
  {
    assert (m.indents + [m.indent])[..|m.indents|] == m.indents;
  }

  lemma ScalarEmitted(m: E.Machine, v: string, style: Style, place: Place, simpleKey: bool,
                      more: seq<E.EmitEvent>, env: Env)
    requires ValidEnv(env) && m.states != [] && m.flow == 0
    requires E.InListItem(m) == (place == InList)
    ensures E.EmitNode(m, [E.Scalar(v, style)] + more, place == Root, simpleKey, env.cfg)
         == E.Done(Returned(m, EmitScalar(m.pen, v, style, place, simpleKey, m.indent, env.cfg)))
  {
    hide SelectStyle, WriteScalar, IncreaseIndent;
    assert (m.indents + [m.indent])[..|m.indents|] == m.indents;
  }

  lemma FirstIsNoEnd(tree: Tree, env: Env)
    ensures !NodeEvents(tree, env)[0].SequenceEnd? && !NodeEvents(tree, env)[0].MappingEnd?
  {
  }

  lemma {:induction false} TreeEmitted(tree: Tree, m: E.Machine, place: Place, tail: seq<E.EmitEvent>, env: Env)
    requires ValidEnv(env) && m.states != [] && m.flow == 0
    requires E.InListItem(m) == (place == InList)
    ensures Begins(E.EmitNode(m, NodeEvents(tree, env) + tail, place == Root, false, env.cfg),
                   NodeEvents(tree, env), tail,
                   Returned(m, EmitTree(m.pen, tree, place, m.indent, env)), env.cfg)
    decreases tree, 1
  {
    hide E.Dispatch, E.EmitNode, EmitItems, EmitEntries, ItemEvents, EntryEvents, EmitScalar, Begins;
    match tree
    case TList(items) =>
      if items == [] {
        EmptyListEmitted(m, place, tail, env);
      } else {
        ListEmitted(items, m, place, tail, env);
      }
    case TObject(entries) =>
      if entries == [] {
        EmptyObjectEmitted(m, place, tail, env);
      } else {
        ObjectEmitted(entries, m, place, tail, env);
      }
    case _ => LeafEmitted(tree, m, place, tail, env);
  }

  lemma LeafEmitted(tree: Tree, m: E.Machine, place: Place, tail: seq<E.EmitEvent>, env: Env)
    requires ValidEnv(env) && m.states != [] && m.flow == 0 && IsLeaf(tree)
    requires E.InListItem(m) == (place == InList)
    ensures Begins(E.EmitNode(m, NodeEvents(tree, env) + tail, place == Root, false, env.cfg),
                   NodeEvents(tree, env), tail,
                   Returned(m, EmitTree(m.pen, tree, place, m.indent, env)), env.cfg)
  {
    hide E.Dispatch, E.EmitNode, EmitScalar;
    ScalarEmitted(m, LeafText(tree), LeafStyle(tree, env), place, false, tail, env);
    assert NodeEvents(tree, env)[1..] == [];
  }

  lemma EmptyListEmitted(m: E.Machine, place: Place, tail: seq<E.EmitEvent>, env: Env)
    requires ValidEnv(env) && m.states != [] && m.flow == 0
    ensures Begins(E.EmitNode(m, NodeEvents(TList([]), env) + tail, place == Root, false, env.cfg),
                   NodeEvents(TList([]), env), tail,
                   Returned(m, EmitTree(m.pen, TList([]), place, m.indent, env)), env.cfg)
  {
    hide IncreaseIndent;
    assert (m.indents + [m.indent])[..|m.indents|] == m.indents;
    assert NodeEvents(TList([]), env) == [E.SequenceStart(false), E.SequenceEnd];
    assert NodeEvents(TList([]), env)[1..] == [E.SequenceEnd];
    assert [E.SequenceEnd][1..] == [];
  }

  lemma EmptyObjectEmitted(m: E.Machine, place: Place, tail: seq<E.EmitEvent>, env: Env)
    requires ValidEnv(env) && m.states != [] && m.flow == 0
    ensures Begins(E.EmitNode(m, NodeEvents(TObject([]), env) + tail, place == Root, false, env.cfg),
                   NodeEvents(TObject([]), env), tail,
                   Returned(m, EmitTree(m.pen, TObject([]), place, m.indent, env)), env.cfg)
  {
    hide IncreaseIndent;
    assert (m.indents + [m.indent])[..|m.indents|] == m.indents;
    assert NodeEvents(TObject([]), env) == [E.MappingStart(false), E.MappingEnd];
    assert NodeEvents(TObject([]), env)[1..] == [E.MappingEnd];
    assert [E.MappingEnd][1..] == [];
  }

  /** The first event inside a block enters it and then is dispatched as any other. */
  lemma EnterPlays(m: E.Machine, events: seq<E.EmitEvent>, tail: seq<E.EmitEvent>, m1: E.Machine, cfg: Config)
    requires ValidConfig(cfg) && m.states != [] && events != []
    ensures m.state == E.AtBlockSequenceFirstItem
            && Plays(E.EnterBlock(m, E.AtBlockSequenceItem, cfg), events, tail, m1, cfg)
        ==> Plays(m, events, tail, m1, cfg)
    ensures m.state == E.AtBlockMappingFirstKey
            && Plays(E.EnterBlock(m, E.AtBlockMappingKey, cfg), events, tail, m1, cfg)
        ==> Plays(m, events, tail, m1, cfg)
  {
    hide E.EmitBlockSequenceItem, E.EmitBlockMappingKey;
  }

  /** A sequence of at least one item begins a block. */
  lemma ListStarts(items: seq<Tree>, m: E.Machine, place: Place, tail: seq<E.EmitEvent>, env: Env)
    requires ValidEnv(env) && m.flow == 0 && items != []
    ensures var events := NodeEvents(TList(items), env);
      && events != [] && events[1..] == ItemEvents(items, env) + [E.SequenceEnd]
      && E.EmitNode(m, events + tail, place == Root, false, env.cfg)
         == E.Done(m.(state := E.AtBlockSequenceFirstItem))
  {
    var events := NodeEvents(TList(items), env);
    FirstIsNoEnd(items[0], env);
    assert events[1..] == ItemEvents(items, env) + [E.SequenceEnd];
    assert (events + tail)[1] == NodeEvents(items[0], env)[0];
  }

  /** A mapping of at least one entry does. */
  lemma ObjectStarts(entries: seq<Entry>, m: E.Machine, place: Place, tail: seq<E.EmitEvent>, env: Env)
    requires ValidEnv(env) && m.flow == 0 && entries != []
    ensures var events := NodeEvents(TObject(entries), env);
      && events != [] && events[1..] == EntryEvents(entries, env) + [E.MappingEnd]
      && E.EmitNode(m, events + tail, place == Root, false, env.cfg)
         == E.Done(m.(state := E.AtBlockMappingFirstKey))
  {
    var events := NodeEvents(TObject(entries), env);
    assert events[1..] == EntryEvents(entries, env) + [E.MappingEnd];
    assert (events + tail)[1] == KeyEvent(entries[0].key, env);
  }

  lemma {:induction false} ListEmitted(items: seq<Tree>, m: E.Machine, place: Place, tail: seq<E.EmitEvent>, env: Env)
    requires ValidEnv(env) && m.states != [] && m.flow == 0 && items != []
    requires E.InListItem(m) == (place == InList)
    ensures Begins(E.EmitNode(m, NodeEvents(TList(items), env) + tail, place == Root, false, env.cfg),
                   NodeEvents(TList(items), env), tail,
                   Returned(m, EmitTree(m.pen, TList(items), place, m.indent, env)), env.cfg)
    decreases items, 2
  {
    hide E.Dispatch, E.EmitNode, EmitItems, Plays, NodeEvents;
    var inside := ItemEvents(items, env) + [E.SequenceEnd];
    ListStarts(items, m, place, tail, env);
    var m1 := m.(state := E.AtBlockSequenceFirstItem);
    var m2 := E.EnterBlock(m1, E.AtBlockSequenceItem, env.cfg);
    ItemsEmitted(items, m2, tail, env);
    ReturnedEntered(m1, E.AtBlockSequenceItem, env.cfg, EmitItems(m.pen, items, m2.indent, env));
    EnterPlays(m1, inside, tail, Returned(m1, EmitItems(m.pen, items, m2.indent, env)), env.cfg);
  }

  lemma BlockEndEmitted(m: E.Machine, tail: seq<E.EmitEvent>, cfg: Config)
    requires ValidConfig(cfg) && m.states != [] && m.indents != []
    ensures m.state == E.AtBlockSequenceItem ==> Plays(m, [E.SequenceEnd], tail, ReturnedIndent(m, m.pen), cfg)
    ensures m.state == E.AtBlockMappingKey ==> Plays(m, [E.MappingEnd], tail, ReturnedIndent(m, m.pen), cfg)
  {
    assert [E.SequenceEnd][1..] == [] && [E.MappingEnd][1..] == [];
  }

  /** A dash and the item behind it. */
  lemma {:induction false} ItemEmitted(item: Tree, m: E.Machine, tail: seq<E.EmitEvent>, env: Env)
    requires ValidEnv(env) && m.state == E.AtBlockSequenceItem && m.flow == 0
    ensures Begins(E.Dispatch(m, NodeEvents(item, env) + tail, env.cfg), NodeEvents(item, env), tail,
                   m.(pen := EmitTree(DashPen(m.pen, m.indent), item, InList, m.indent, env)), env.cfg)
    decreases item, 2
  {
    hide E.EmitNode, NodeEvents, EmitTree, Plays, WriteIndicator, WriteIndent;
    FirstIsNoEnd(item, env);
    var d := DashPen(m.pen, m.indent);
    var m1 := E.Push(m.(pen := d), E.AtBlockSequenceItem);
    TreeEmitted(item, m1, InList, tail, env);
    ReturnedPushed(m, E.AtBlockSequenceItem, d, EmitTree(d, item, InList, m.indent, env));
    assert E.Dispatch(m, NodeEvents(item, env) + tail, env.cfg)
        == E.EmitNode(m1, NodeEvents(item, env) + tail, false, false, env.cfg);
  }

  lemma {:induction false} ItemsEmitted(items: seq<Tree>, m: E.Machine, tail: seq<E.EmitEvent>, env: Env)
    requires ValidEnv(env) && m.state == E.AtBlockSequenceItem && m.flow == 0 && m.states != [] && m.indents != []
    ensures Plays(m, ItemEvents(items, env) + [E.SequenceEnd], tail,
                  ReturnedIndent(m, EmitItems(m.pen, items, m.indent, env)), env.cfg)
    decreases items, 0
  {
    hide E.Dispatch, NodeEvents, EmitTree, Plays, Begins, DashPen;
    var all := ItemEvents(items, env) + [E.SequenceEnd];
    if items == [] {
      assert all == [E.SequenceEnd];
      BlockEndEmitted(m, tail, env.cfg);
    } else {
      var es, more := NodeEvents(items[0], env), ItemEvents(items[1..], env) + [E.SequenceEnd];
      var p1 := EmitTree(DashPen(m.pen, m.indent), items[0], InList, m.indent, env);
      ItemEmitted(items[0], m, more + tail, env);
      ItemsEmitted(items[1..], m.(pen := p1), tail, env);
      DispatchPlays(m, es, m.(pen := p1), more, ReturnedIndent(m, EmitItems(m.pen, items, m.indent, env)), tail,
                    env.cfg);
      assert all == es + more;
    }
  }

  lemma DispatchPlays(m: E.Machine, a: seq<E.EmitEvent>, m1: E.Machine, b: seq<E.EmitEvent>,
                      m2: E.Machine, tail: seq<E.EmitEvent>, cfg: Config)
    requires ValidConfig(cfg) && a != []
    requires Begins(E.Dispatch(m, a + (b + tail), cfg), a, b + tail, m1, cfg) && Plays(m1, b, tail, m2, cfg)
    ensures Plays(m, a + b, tail, m2, cfg)
  {
    hide E.Dispatch;
    PlaysOn(m, a, m1, b, m2, tail, cfg);
  }

  lemma {:induction false} ObjectEmitted(entries: seq<Entry>, m: E.Machine, place: Place,
                                         tail: seq<E.EmitEvent>, env: Env)
    requires ValidEnv(env) && m.states != [] && m.flow == 0 && entries != []
    requires E.InListItem(m) == (place == InList)
    ensures Begins(E.EmitNode(m, NodeEvents(TObject(entries), env) + tail, place == Root, false, env.cfg),
                   NodeEvents(TObject(entries), env), tail,
                   Returned(m, EmitTree(m.pen, TObject(entries), place, m.indent, env)), env.cfg)
    decreases entries, 2
  {
    hide E.Dispatch, E.EmitNode, EmitEntries, Plays, NodeEvents;
    var inside := EntryEvents(entries, env) + [E.MappingEnd];
    ObjectStarts(entries, m, place, tail, env);
    var m1 := m.(state := E.AtBlockMappingFirstKey);
    var m2 := E.EnterBlock(m1, E.AtBlockMappingKey, env.cfg);
    EntriesEmitted(entries, m2, tail, env);
    ReturnedEntered(m1, E.AtBlockMappingKey, env.cfg, EmitEntries(m.pen, entries, m2.indent, env));
    EnterPlays(m1, inside, tail, Returned(m1, EmitEntries(m.pen, entries, m2.indent, env)), env.cfg);
  }

  /** The pen after the key itself, before its ':'. */
  function KeyPen(p: Pen, key: string, indent: int, env: Env): Pen
    requires ValidEnv(env)
  {
    var style := (env.styleOf)(key);
    var q := WriteIndent(p, indent);
    if SimpleKeyAllowed(key) then EmitScalar(q, key, style, InObject, true, indent, env.cfg)
    else EmitScalar(WriteIndicator(q, "?", true, false, true), key, style, InObject, false, indent, env.cfg)
  }

  function ValueState(key: string): E.EmitState {
    if SimpleKeyAllowed(key) then E.AtBlockMappingSimpleValue else E.AtBlockMappingValue
  }

  lemma KeyEmitted(key: string, m: E.Machine, more: seq<E.EmitEvent>, env: Env)
    requires ValidEnv(env) && m.state == E.AtBlockMappingKey && m.flow == 0
    ensures E.Dispatch(m, [KeyEvent(key, env)] + more, env.cfg)
         == E.Done(m.(state := ValueState(key), pen := KeyPen(m.pen, key, m.indent, env)))
  {
    hide E.EmitNode, EmitScalar, SimpleKeyAllowed, WriteIndicator, WriteIndent;
    var style := (env.styleOf)(key);
    var q := WriteIndent(m.pen, m.indent);
    var p := if SimpleKeyAllowed(key) then q else WriteIndicator(q, "?", true, false, true);
    var m1 := E.Push(m.(pen := p), ValueState(key));
    ScalarEmitted(m1, key, style, InObject, SimpleKeyAllowed(key), more, env);
    ReturnedPushed(m, ValueState(key), p, KeyPen(m.pen, key, m.indent, env));
  }

  /** The ':' and the value. */
  lemma {:induction false} ValueEmitted(key: string, value: Tree, m: E.Machine, p: Pen,
                                        tail: seq<E.EmitEvent>, env: Env)
    requires ValidEnv(env) && m.state == ValueState(key) && m.flow == 0 && m.pen == KeyPen(p, key, m.indent, env)
    ensures Begins(E.Dispatch(m, NodeEvents(value, env) + tail, env.cfg), NodeEvents(value, env), tail,
                   m.(state := E.AtBlockMappingKey,
                      pen := EmitTree(EmitKey(p, key, m.indent, env), value, InObject, m.indent, env)), env.cfg)
    decreases value, 2
  {
    hide E.EmitNode, NodeEvents, EmitTree, EmitScalar, Plays, WriteIndicator, WriteIndent, SimpleKeyAllowed;
    var k := EmitKey(p, key, m.indent, env);
    var m1 := E.Push(m.(pen := k), E.AtBlockMappingKey);
    TreeEmitted(value, m1, InObject, tail, env);
    ReturnedPushed(m, E.AtBlockMappingKey, k, EmitTree(k, value, InObject, m.indent, env));
    assert E.Dispatch(m, NodeEvents(value, env) + tail, env.cfg)
        == E.EmitNode(m1, NodeEvents(value, env) + tail, false, false, env.cfg);
  }

  lemma {:induction false} EntriesEmitted(entries: seq<Entry>, m: E.Machine, tail: seq<E.EmitEvent>, env: Env)
    requires ValidEnv(env) && m.state == E.AtBlockMappingKey && m.flow == 0 && m.states != [] && m.indents != []
    ensures Plays(m, EntryEvents(entries, env) + [E.MappingEnd], tail,
                  ReturnedIndent(m, EmitEntries(m.pen, entries, m.indent, env)), env.cfg)
    decreases entries, 0
  {
    hide E.Dispatch, NodeEvents, EmitTree, EmitKey, KeyPen, KeyEvent, Plays, Begins;
    var all := EntryEvents(entries, env) + [E.MappingEnd];
    if entries == [] {
      assert all == [E.MappingEnd];
      BlockEndEmitted(m, tail, env.cfg);
    } else {
      var key, value := entries[0].key, entries[0].value;
      var more := EntryEvents(entries[1..], env) + [E.MappingEnd];
      var done := ReturnedIndent(m, EmitEntries(m.pen, entries, m.indent, env));
      var m1 := m.(state := ValueState(key), pen := KeyPen(m.pen, key, m.indent, env));
      var p2 := EmitTree(EmitKey(m.pen, key, m.indent, env), value, InObject, m.indent, env);
      ValueEmitted(key, value, m1, m.pen, more + tail, env);
      EntriesEmitted(entries[1..], m.(pen := p2), tail, env);
      DispatchPlays(m1, NodeEvents(value, env), m.(pen := p2), more, done, tail, env.cfg);
      var rest := NodeEvents(value, env) + more;
      KeyEmitted(key, m, rest + tail, env);
      KeyPlays(m, KeyEvent(key, env), m1, rest, done, tail, env.cfg);
      assert all == [KeyEvent(key, env)] + rest;
    }
  }

  lemma KeyPlays(m: E.Machine, e: E.EmitEvent, m1: E.Machine, rest: seq<E.EmitEvent>, done: E.Machine,
                 tail: seq<E.EmitEvent>, cfg: Config)
    requires ValidConfig(cfg)
    requires E.Dispatch(m, [e] + (rest + tail), cfg) == E.Done(m1) && Plays(m1, rest, tail, done, cfg)
    ensures Plays(m, [e] + rest, tail, done, cfg)
  {
    hide E.Dispatch;
    assert [e] + rest + tail == [e] + (rest + tail);
    assert ([e] + rest)[1..] == rest;
  }

  // ---------- documents ----------

  /** The emitter after the stream's end. */
  function Ended(pen: Pen): E.Machine {
    E.Machine(E.AtEnd, [], -1, [], 0, pen)
  }

  lemma {:induction false} LastIsNoStart(tree: Tree, env: Env)
    ensures var es := NodeEvents(tree, env); !E.Starts(es[|es| - 1])
  {
  }

  lemma RootPlays(tree: Tree, m: E.Machine, tail: seq<E.EmitEvent>, env: Env)
    requires ValidEnv(env) && m.state == E.AtDocumentContent && m.flow == 0
    ensures Plays(m, NodeEvents(tree, env), tail,
                  m.(state := E.AtDocumentEnd, pen := EmitTree(m.pen, tree, Root, m.indent, env)), env.cfg)
  {
    hide E.EmitNode, NodeEvents, EmitTree, Plays, Begins;
    var es := NodeEvents(tree, env);
    var m1 := E.Push(m, E.AtDocumentEnd);
    var p := EmitTree(m.pen, tree, Root, m.indent, env);
    TreeEmitted(tree, m1, Root, tail, env);
    ReturnedPushed(m, E.AtDocumentEnd, m.pen, p);
    BeginsPlays(m, es, tail, m.(state := E.AtDocumentEnd, pen := p), env.cfg);
  }

  lemma BeginsPlays(m: E.Machine, a: seq<E.EmitEvent>, tail: seq<E.EmitEvent>, m1: E.Machine, cfg: Config)
    requires ValidConfig(cfg) && a != [] && Begins(E.Dispatch(m, a + tail, cfg), a, tail, m1, cfg)
    ensures Plays(m, a, tail, m1, cfg)
  {
    hide E.Dispatch;
  }

  lemma EndPlays(p: Pen, cfg: Config)
    requires ValidConfig(cfg)
    ensures var q := WriteIndent(p, -1);
      var r := if q.openEnded then WriteIndent(WriteIndicator(q, "...", true, false, false), -1) else q;
      Plays(E.Machine(E.AtDocumentEnd, [], -1, [], 0, p), [E.DocumentEnd(true), E.StreamEnd], [], Ended(r), cfg)
  {
    hide WriteIndent, WriteIndicator;
    assert [E.DocumentEnd(true), E.StreamEnd][1..] == [E.StreamEnd];
    assert [E.StreamEnd][1..] == [];
  }

  lemma StartPlays(rest: seq<E.EmitEvent>, cfg: Config)
    requires ValidConfig(cfg)
    ensures Plays(E.StartMachine, [E.StreamStart, E.DocumentStart(true)], rest,
                  E.Machine(E.AtDocumentContent, [], -1, [], 0, StartPen), cfg)
  {
    assert [E.StreamStart, E.DocumentStart(true)][1..] == [E.DocumentStart(true)];
    assert [E.DocumentStart(true)][1..] == [];
  }

  lemma DocumentPlays(tree: Tree, env: Env)
    requires ValidEnv(env)
    ensures Play(E.StartMachine, DocumentEvents(tree, env), env.cfg) == E.Done(Ended(EmitDocument(tree, env)))
  {
    hide E.Dispatch, NodeEvents, EmitTree, Plays, Play, WriteIndent, WriteIndicator;
    var es, tail := NodeEvents(tree, env), [E.DocumentEnd(true), E.StreamEnd];
    var p := EmitTree(StartPen, tree, Root, -1, env);
    var m := E.Machine(E.AtDocumentContent, [], -1, [], 0, StartPen);
    var done := Ended(EmitDocument(tree, env));
    StartPlays(es + tail + [], env.cfg);
    RootPlays(tree, m, tail, env);
    EndPlays(p, env.cfg);
    assert tail + [] == tail;
    PlaysOn(m, es, m.(state := E.AtDocumentEnd, pen := p), tail, done, [], env.cfg);
    PlaysOn(E.StartMachine, [E.StreamStart, E.DocumentStart(true)], m, es + tail, done, [], env.cfg);
    assert [E.StreamStart, E.DocumentStart(true)] + (es + tail) == DocumentEvents(tree, env);
    PlaysIsPlay(E.StartMachine, DocumentEvents(tree, env), done, env.cfg);
  }

  /** Nothing that ends a document's stream makes the emitter wait. */
  lemma NothingHeldBack(tree: Tree, env: Env, q: seq<E.EmitEvent>)
    requires SuffixOf(q, DocumentEvents(tree, env)) && E.NeedMoreEvents(q)
    ensures q == []
  {
    hide NodeEvents, E.Closes;
    LastIsNoStart(tree, env);
  }

  /**
   Every event of a JSON document that is handed to the emitter is dispatched in the end: no
   event is left in the queue, the stacks are empty again, and the text is the document's
   layout, although the emitter holds events back to look one, two or three ahead.
   */
  lemma DocumentEmitted(tree: Tree, env: Env)
    requires ValidEnv(env)
    ensures E.EmitAll(E.Queued(E.StartMachine, []), DocumentEvents(tree, env), env.cfg)
         == Ok(E.Queued(Ended(EmitDocument(tree, env)), []))
  {
    hide E.Dispatch, E.EmitAll, E.NeedMoreEvents, NodeEvents, EmitDocument;
    var all := DocumentEvents(tree, env);
    QueueIsInvisible(E.Queued(E.StartMachine, []), all, env.cfg);
    assert [] + all == all;
    DocumentPlays(tree, env);
    var r := E.EmitAll(E.Queued(E.StartMachine, []), all, env.cfg);
    if r.Ok? {
      NothingHeldBack(tree, env, r.value.queue);
      assert r.value.queue + [] == [];
    } else {
      ErrIsNotDone(E.Queued(E.StartMachine, []), all, env.cfg);
    }
  }

  /** Only a dispatch that does not succeed stops the emitter. */
  lemma {:induction false} DrainErr(m: E.Machine, q: seq<E.EmitEvent>, cfg: Config)
    requires ValidConfig(cfg)
    ensures E.Drain(m, q, cfg).Err? ==> !E.Drain(m, q, cfg).error.Done?
    decreases |q|
  {
    hide E.Dispatch;
    if !E.NeedMoreEvents(q) && E.Dispatch(m, q, cfg).Done? {
      DrainErr(E.Dispatch(m, q, cfg).next, q[1..], cfg);
    }
  }

  lemma {:induction false} ErrIsNotDone(e: E.Queued, events: seq<E.EmitEvent>, cfg: Config)
    requires ValidConfig(cfg)
    ensures E.EmitAll(e, events, cfg).Err? ==> !E.EmitAll(e, events, cfg).error.Done?
    decreases |events|
  {
    if events != [] {
      DrainErr(e.machine, e.queue + [events[0]], cfg);
      if E.Emit(e, events[0], cfg).Ok? {
        ErrIsNotDone(E.Emit(e, events[0], cfg).value, events[1..], cfg);
      }
    }
  }
}
