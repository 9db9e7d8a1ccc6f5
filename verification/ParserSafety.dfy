/**
 What every step of the parser keeps, for any tokens: the stack of states lists the open
 collections, no empty stack is popped, the events are well bracketed, and each step brings
 the end nearer.
 */
module ParserSafety {
  import opened Options
  import opened Tokens
  import opened Parser

  // ---------- well-bracketed events ----------

  /** What may come next in an open part of the stream. */
  datatype Frame = Opening | InStream | DocumentOpen | DocumentDone | InSequence | KeyNext | ValueNext | Finished

  predicate TakesNode(f: Frame) {
    f == DocumentOpen || f == InSequence || f == KeyNext || f == ValueNext
  }

  function AfterNode(f: Frame): Frame {
    match f
    case DocumentOpen => DocumentDone
    case KeyNext => ValueNext
    case ValueNext => KeyNext
    case _ => f
  }

  /** One event read by the grammar of events, innermost open part last. */
  function Accept(open: seq<Frame>, e: Event): Option<seq<Frame>> {
    if open == [] then None
    else
      var last := |open| - 1;
      var top, under := open[last], open[..last];
      match e
      case StreamStart => if open == [Opening] then Some([InStream]) else None
      case StreamEnd => if open == [InStream] then Some([Finished]) else None
      case DocumentStart => if open == [InStream] then Some([InStream, DocumentOpen]) else None
      case DocumentEnd => if top == DocumentDone then Some(under) else None
      case SequenceEnd => if top == InSequence then Some(under) else None
      case MappingEnd => if top == KeyNext then Some(under) else None
      case SequenceStart(_, _) => if TakesNode(top) then Some(under + [AfterNode(top), InSequence]) else None
      case MappingStart(_, _) => if TakesNode(top) then Some(under + [AfterNode(top), KeyNext]) else None
      case _ => if TakesNode(top) then Some(under + [AfterNode(top)]) else None
  }

  /** The open parts of the stream after the events, if the grammar allows them all. */
  function Brackets(open: seq<Frame>, events: seq<Event>): Option<seq<Frame>>
    decreases |events|
  {
    if events == [] then Some(open)
    else
      match Accept(open, events[0])
      case None => None
      case Some(next) => Brackets(next, events[1..])
  }

  // ---------- the stack of states ----------

  predicate IsFirst(s: ParseState) {
    s.AtBlockSequenceFirstEntry? || s.AtBlockMappingFirstKey?
    || s.AtFlowSequenceFirstEntry? || s.AtFlowMappingFirstKey?
  }

  /** The state once the start token of the collection has been passed. */
  function Entered(s: ParseState): ParseState {
    match s
    case AtBlockSequenceFirstEntry => AtBlockSequenceEntry
    case AtBlockMappingFirstKey => AtBlockMappingKey
    case AtFlowSequenceFirstEntry => AtFlowSequenceEntry
    case AtFlowMappingFirstKey => AtFlowMappingKey
    case _ => s
  }

  /** The open parts that a state stands for. */
  function FramesOf(s: ParseState): seq<Frame> {
    match s
    case AtDocumentEnd => [DocumentDone]
    case AtBlockSequenceEntry => [InSequence]
    case AtIndentlessSequenceEntry => [InSequence]
    case AtFlowSequenceEntry => [InSequence]
    case AtBlockMappingKey => [KeyNext]
    case AtFlowMappingKey => [KeyNext]
    case AtBlockMappingValue => [ValueNext]
    case AtFlowMappingValue => [ValueNext]
    case AtFlowMappingEmptyValue => [ValueNext]
    case AtFlowSequenceEntryMappingKey => [InSequence, KeyNext]
    case AtFlowSequenceEntryMappingValue => [InSequence, ValueNext]
    case AtFlowSequenceEntryMappingEnd => [InSequence, KeyNext]
    case _ => []
  }

  /** The marks kept for a state's collection. */
  function MarksOf(s: ParseState): nat {
    if FramesOf(s) == [] || s.AtDocumentEnd? || s.AtIndentlessSequenceEntry? then 0 else 1
  }

  function Frames(states: seq<ParseState>): seq<Frame> {
    if states == [] then []
    else Frames(states[..|states| - 1]) + FramesOf(states[|states| - 1])
  }

  function Marks(states: seq<ParseState>): nat {
    if states == [] then 0
    else Marks(states[..|states| - 1]) + MarksOf(states[|states| - 1])
  }

  predicate InMapping(s: ParseState) {
    s.AtBlockMappingKey? || s.AtBlockMappingValue?
  }

  /** A document, and inside it the collections, each in the state it will go on in. */
  predicate GoodStack(states: seq<ParseState>) {
    && states != [] && states[0] == AtDocumentEnd
    && forall i :: 1 <= i < |states| ==> GoodAbove(states[i - 1], states[i])
  }

  predicate GoodAbove(below: ParseState, s: ParseState) {
    FramesOf(s) != [] && s != AtDocumentEnd && (s == AtIndentlessSequenceEntry ==> InMapping(below))
  }

  /** The next token is the one that starts the collection. */
  predicate StartsWith(tokens: seq<Token>, s: ParseState) {
    tokens != [] &&
    match s
    case AtBlockSequenceFirstEntry => tokens[0].BlockSequenceStartToken?
    case AtBlockMappingFirstKey => tokens[0].BlockMappingStartToken?
    case AtFlowSequenceFirstEntry => tokens[0].FlowSequenceStartToken?
    case _ => tokens[0].FlowMappingStartToken?
  }

  predicate BetweenDocuments(s: ParseState) {
    s.AtStreamStart? || s.AtImplicitDocumentStart? || s.AtDocumentStart? || s.AtEnd?
  }

  predicate BeforeRoot(s: ParseState) {
    s.AtBlockNode? || s.AtDocumentContent?
  }

  predicate Good(m: Machine) {
    if BetweenDocuments(m.state) then m.states == [] && m.marks == 0
    else if BeforeRoot(m.state) then m.states == [AtDocumentEnd] && m.marks == 0
    else
      && GoodStack(m.states + [Entered(m.state)])
      && m.marks == Marks(m.states) + (if IsFirst(m.state) then 0 else MarksOf(m.state))
      && (IsFirst(m.state) ==> StartsWith(m.tokens, m.state))
  }

  /** The open parts of the stream in a state of the machine. */
  function Shape(m: Machine): seq<Frame> {
    match m.state
    case AtStreamStart => [Opening]
    case AtEnd => [Finished]
    case AtImplicitDocumentStart => [InStream]
    case AtDocumentStart => [InStream]
    case AtBlockNode => [InStream, DocumentOpen]
    case AtDocumentContent => [InStream, DocumentOpen]
    case _ => [InStream] + Frames(m.states) + FramesOf(Entered(m.state))
  }

  function Rank(s: ParseState): nat {
    match s
    case AtImplicitDocumentStart => 2
    case AtDocumentContent => 2
    case AtIndentlessSequenceEntry => 2
    case AtFlowSequenceEntryMappingValue => 2
    case AtBlockNode => 1
    case AtDocumentEnd => 1
    case AtBlockMappingValue => 1
    case AtFlowSequenceEntryMappingKey => 1
    case AtFlowSequenceEntryMappingEnd => 1
    case AtFlowMappingValue => 1
    case AtFlowMappingEmptyValue => 1
    case _ => 0
  }

  /** Falls with every event: at most three events for a token. */
  function Measure(m: Machine): nat {
    3 * |m.tokens| + Rank(m.state)
  }

  // ---------- one step ----------

  /** The outcome of a step taken with `open` open parts, when `budget` bounds the measure. */
  predicate Sound(o: Outcome, open: seq<Frame>, budget: int) {
    match o
    case Panic => false
    case Failed(_) => true
    case Produced(event, next) =>
      Good(next) && Accept(open, event) == Some(Shape(next)) && Measure(next) <= budget
  }

  lemma SnocFrames(states: seq<ParseState>, s: ParseState)
    ensures Frames(states + [s]) == Frames(states) + FramesOf(s)
    ensures Marks(states + [s]) == Marks(states) + MarksOf(s)
  {
    assert (states + [s])[..|states|] == states;
  }

  lemma StackParts(states: seq<ParseState>, s: ParseState, s': ParseState)
    requires GoodStack(states + [s])
    ensures states == [] ==> s == AtDocumentEnd
    ensures states != [] ==> GoodStack(states) && GoodAbove(states[|states| - 1], s)
    ensures states != [] && GoodAbove(states[|states| - 1], s') ==> GoodStack(states + [s'])
  {
    var full := states + [s];
    forall i | 1 <= i < |states| ensures GoodAbove(states[i - 1], states[i]) {
      assert GoodAbove(full[i - 1], full[i]);
    }
    if states != [] {
      assert full[0] == states[0] && GoodAbove(full[|states| - 1], full[|states|]);
      if GoodAbove(states[|states| - 1], s') {
        StackGrows(states, s');
      }
    }
  }

  lemma StackGrows(states: seq<ParseState>, s: ParseState)
    requires GoodStack(states) && GoodAbove(states[|states| - 1], s)
    ensures GoodStack(states + [s])
  {
    var full := states + [s];
    forall i | 1 <= i < |full| ensures GoodAbove(full[i - 1], full[i]) {
      if i < |states| { assert GoodAbove(states[i - 1], states[i]); }
    }
  }

  /** Going back to the state pushed last, with the node or collection done. */
  lemma ReturnSound(m: Machine, event: Event, open: seq<Frame>, budget: int)
    requires GoodStack(m.states) && m.marks == Marks(m.states)
    requires Accept(open, event) == Some([InStream] + Frames(m.states))
    requires 3 * |m.tokens| + Rank(m.states[|m.states| - 1]) <= budget
    ensures Sound(Return(m, event), open, budget)
  {
    hide FramesOf, MarksOf, IsFirst, Entered, BetweenDocuments, BeforeRoot, Rank, Accept, GoodAbove, Shape;
    var last := |m.states| - 1;
    var s := m.states[last];
    assert m.states[..last] + [s] == m.states;
    SnocFrames(m.states[..last], s);
    if last > 0 { assert GoodAbove(m.states[last - 1], m.states[last]); }
    StackedState(if last > 0 then m.states[last - 1] else s, s);
    var next := m.(state := s, states := m.states[..last]);
    StackedShape(next);
    assert [InStream] + Frames(m.states) == [InStream] + Frames(m.states[..last]) + FramesOf(s);
  }

  /** A state on the stack is no first state, and stands inside a document. */
  lemma StackedState(below: ParseState, s: ParseState)
    requires s == AtDocumentEnd || GoodAbove(below, s)
    ensures FramesOf(s) != [] && Entered(s) == s && !IsFirst(s) && !BetweenDocuments(s) && !BeforeRoot(s)
  {
  }

  lemma StackedShape(m: Machine)
    requires !BetweenDocuments(m.state) && !BeforeRoot(m.state)
    ensures Shape(m) == [InStream] + Frames(m.states) + FramesOf(Entered(m.state))
  {
    hide Frames, FramesOf, Entered;
  }

  /** A collection begins in the state of its first entry. */
  lemma BeginSound(m: Machine, event: Event, s: ParseState, open: seq<Frame>, budget: int)
    requires GoodStack(m.states) && m.marks == Marks(m.states)
    requires IsFirst(s) || (s == AtIndentlessSequenceEntry && InMapping(m.states[|m.states| - 1]))
    requires IsFirst(s) ==> StartsWith(m.tokens, s)
    requires Accept(open, event) == Some([InStream] + Frames(m.states) + FramesOf(Entered(s)))
    requires 3 * |m.tokens| + Rank(s) <= budget
    ensures Sound(Produced(event, m.(state := s)), open, budget)
  {
    StackGrows(m.states, Entered(s));
  }

  /** The open parts f become g once a node is read. */
  predicate Follows(f: seq<Frame>, g: seq<Frame>) {
    && f != [] && |g| == |f| && TakesNode(f[|f| - 1])
    && g == f[..|f| - 1] + [AfterNode(f[|f| - 1])]
  }

  lemma FollowsUnder(base: seq<Frame>, f: seq<Frame>, g: seq<Frame>)
    requires Follows(f, g)
    ensures Follows(base + f, base + g)
  {
    assert (base + f)[..|base + f| - 1] == base + f[..|f| - 1];
  }

  /** A node may stand where `open` ends; the stack already holds what follows it. */
  predicate NodeDue(m: Machine, open: seq<Frame>, indentless: bool) {
    && GoodStack(m.states) && m.marks == Marks(m.states)
    && Follows(open, [InStream] + Frames(m.states))
    && (indentless ==> InMapping(m.states[|m.states| - 1]))
  }

  function NodeBudget(m: Machine, indentless: bool): nat {
    3 * |m.tokens| + if indentless then 2 else 0
  }

  lemma NodeAccepted(m: Machine, open: seq<Frame>, indentless: bool, anchor: string, tag: string)
    requires NodeDue(m, open, indentless)
    ensures Accept(open, SequenceStart(anchor, tag)) == Some([InStream] + Frames(m.states) + [InSequence])
    ensures Accept(open, MappingStart(anchor, tag)) == Some([InStream] + Frames(m.states) + [KeyNext])
    ensures forall e: Event :: e.Alias? || e.Scalar? ==> Accept(open, e) == Some([InStream] + Frames(m.states))
  {
    var last := |open| - 1;
    var base := open[..last] + [AfterNode(open[last])];
    assert open[..last] + [AfterNode(open[last]), InSequence] == base + [InSequence];
    assert open[..last] + [AfterNode(open[last]), KeyNext] == base + [KeyNext];
  }

  lemma ContentSound(m: Machine, anchor: string, tag: string, block: bool, indentless: bool,
                     open: seq<Frame>, passed: nat)
    requires NodeDue(m, open, indentless) && m.tokens != []
    requires anchor != "" || tag != "" ==> passed >= 1
    ensures Sound(ParseContent(m, anchor, tag, block, indentless), open,
                  NodeBudget(m, indentless) + 3 * passed)
  {
    hide Accept, GoodStack, Good, Shape, Frames, Marks;
    NodeAccepted(m, open, indentless, anchor, tag);
    var t := m.tokens[0];
    var budget := NodeBudget(m, indentless) + 3 * passed;
    if indentless && t.BlockEntryToken? {
      BeginSound(m, SequenceStart(anchor, tag), AtIndentlessSequenceEntry, open, budget);
    } else if t.ScalarToken? {
      ReturnSound(Drop(m, 1), Scalar(anchor, tag, t.value, (tag == "" && t.style == Resolve.Plain) || tag == "!"),
                  open, budget);
    } else if t.FlowSequenceStartToken? {
      BeginSound(m, SequenceStart(anchor, tag), AtFlowSequenceFirstEntry, open, budget);
    } else if t.FlowMappingStartToken? {
      BeginSound(m, MappingStart(anchor, tag), AtFlowMappingFirstKey, open, budget);
    } else if block && t.BlockSequenceStartToken? {
      BeginSound(m, SequenceStart(anchor, tag), AtBlockSequenceFirstEntry, open, budget);
    } else if block && t.BlockMappingStartToken? {
      BeginSound(m, MappingStart(anchor, tag), AtBlockMappingFirstKey, open, budget);
    } else if anchor != "" || tag != "" {
      ReturnSound(m, Scalar(anchor, tag, "", tag == ""), open, budget);
    }
  }

  lemma NodeSound(m: Machine, block: bool, indentless: bool, open: seq<Frame>)
    requires NodeDue(m, open, indentless)
    ensures Sound(ParseNode(m, block, indentless), open, NodeBudget(m, indentless))
  {
    hide Accept, GoodStack, Good, Shape, Frames, Marks, ParseContent;
    if m.tokens != [] {
      if m.tokens[0].AliasToken? {
        NodeAccepted(m, open, indentless, "", "");
        ReturnSound(Drop(m, 1), Alias(m.tokens[0].name), open, NodeBudget(m, indentless));
      } else {
        match ReadProperties(m) {
          case Err(_) =>
          case Ok(Properties(anchor, tag, rest)) =>
            ContentSound(rest, anchor, tag, block, indentless, open, |m.tokens| - |rest.tokens|);
        }
      }
    }
  }

  /** The stack after a push, with a node due there. */
  lemma PushDue(m: Machine, s: ParseState, open: seq<Frame>, indentless: bool)
    requires GoodStack(m.states + [s]) && m.states != [] && m.marks == Marks(m.states) + MarksOf(s)
    requires Follows(open, [InStream] + Frames(m.states) + FramesOf(s))
    requires indentless ==> InMapping(s)
    ensures NodeDue(PushState(m, s), open, indentless)
  {
    SnocFrames(m.states, s);
    assert [InStream] + Frames(m.states) + FramesOf(s) == [InStream] + (Frames(m.states) + FramesOf(s));
  }

  /** An empty scalar in place of a node. */
  lemma EmptySound(m: Machine, s: ParseState, open: seq<Frame>, budget: int)
    requires GoodStack(m.states + [s]) && m.states != [] && m.marks == Marks(m.states) + MarksOf(s)
    requires !IsFirst(s) && !BetweenDocuments(s) && !BeforeRoot(s)
    requires Follows(open, [InStream] + Frames(m.states) + FramesOf(s))
    requires 3 * |m.tokens| + Rank(s) <= budget
    ensures Sound(Produced(EmptyScalar, m.(state := s)), open, budget)
  {
  }

  lemma NodeOrEmptySound(m: Machine, there: Token -> bool, block: bool, indentless: bool,
                         s: ParseState, open: seq<Frame>)
    requires GoodStack(m.states + [s]) && m.states != [] && m.marks == Marks(m.states) + MarksOf(s)
    requires !IsFirst(s) && !BetweenDocuments(s) && !BeforeRoot(s)
    requires Follows(open, [InStream] + Frames(m.states) + FramesOf(s))
    requires indentless ==> InMapping(s)
    ensures Sound(NodeOrEmpty(m, there, block, indentless, s), open, 3 * |m.tokens| + 2)
  {
    hide Accept, GoodStack, Good, Shape, Frames, Marks, ParseNode;
    if m.tokens != [] {
      if there(m.tokens[0]) {
        PushDue(m, s, open, indentless);
        NodeSound(PushState(m, s), block, indentless, open);
      } else {
        EmptySound(m, s, open, 3 * |m.tokens| + 2);
      }
    }
  }

  // ---------- the states ----------

  /** The machine stands in an entered state of the stack. */
  predicate InState(m: Machine) {
    && !BetweenDocuments(m.state) && !BeforeRoot(m.state) && !IsFirst(m.state)
    && GoodStack(m.states + [m.state]) && m.marks == Marks(m.states) + MarksOf(m.state)
  }

  /** The end of a collection, with its token passed. */
  lemma EndSound(m: Machine, event: Event, k: nat)
    requires InState(m) && m.state != AtDocumentEnd && k <= |m.tokens|
    requires (event == SequenceEnd && FramesOf(m.state) == [InSequence])
          || (event == MappingEnd && FramesOf(m.state) == [KeyNext])
    requires k > 0 || m.state == AtIndentlessSequenceEntry
    ensures m.state == AtIndentlessSequenceEntry ==> Sound(Return(Drop(m, k), event), Shape(m), Measure(m) - 1)
    ensures m.state != AtIndentlessSequenceEntry ==>
      Sound(ReturnMarked(Drop(m, k), event), Shape(m), 3 * |m.tokens| - 3 * k + 2)
  {
    hide Accept, Shape, Frames, Marks, GoodStack, Sound, FramesOf, Entered, IsFirst, BetweenDocuments, BeforeRoot, Rank;
    StackParts(m.states, m.state, m.state);
    StackedState(m.states[|m.states| - 1], m.state);
    StackedShape(m);
    StackedRank(m.states[|m.states| - 1]);
    EndAccepted([InStream] + Frames(m.states), FramesOf(m.state)[0], event);
    if m.state == AtIndentlessSequenceEntry {
      ReturnSound(Drop(m, k), event, Shape(m), Measure(m) - 1);
    } else {
      ReturnSound(Drop(m, k).(marks := m.marks - 1), event, Shape(m), 3 * |m.tokens| - 3 * k + 2);
    }
  }

  lemma EndAccepted(under: seq<Frame>, f: Frame, event: Event)
    requires (event == SequenceEnd && f == InSequence) || (event == MappingEnd && f == KeyNext)
    ensures Accept(under + [f], event) == Some(under)
  {
    assert (under + [f])[..|under|] == under;
  }

  lemma StackedRank(s: ParseState)
    ensures Rank(s) <= 2 && Rank(AtIndentlessSequenceEntry) == 2
    ensures InMapping(s) ==> Rank(s) <= 1
  {
  }

  /** The next state of the same collection, once a node is read. */
  lemma NextState(m: Machine, s: ParseState)
    requires InState(m) && m.state != AtDocumentEnd
    requires FramesOf(s) != [] && s != AtDocumentEnd && MarksOf(s) == MarksOf(m.state)
    requires s == AtIndentlessSequenceEntry ==> m.state == s
    requires Follows(FramesOf(m.state), FramesOf(s))
    ensures GoodStack(m.states + [s]) && m.states != [] && m.marks == Marks(m.states) + MarksOf(s)
    ensures Follows(Shape(m), [InStream] + Frames(m.states) + FramesOf(s))
  {
    hide GoodStack, Frames, Marks, Follows;
    StackParts(m.states, m.state, s);
    FollowsUnder([InStream] + Frames(m.states), FramesOf(m.state), FramesOf(s));
  }

  lemma BlockSequenceNodeSound(m: Machine)
    requires InState(m) && m.state == AtBlockSequenceEntry
    requires m.tokens != [] && m.tokens[0].BlockEntryToken?
    ensures Sound(ParseBlockSequenceEntry(m), Shape(m), Measure(m) - 1)
  {
    hide Accept, GoodStack, Good, Shape, Frames, Marks, Return, NodeOrEmpty, Sound;
    NextState(m, AtBlockSequenceEntry);
    NodeOrEmptySound(Drop(m, 1), (t: Token) => !t.BlockEntryToken? && !t.BlockEndToken?,
                     true, false, AtBlockSequenceEntry, Shape(m));
    assert 3 * |Drop(m, 1).tokens| + 2 == Measure(m) - 1;
  }

  lemma BlockSequenceEntrySound(m: Machine)
    requires InState(m) && m.state == AtBlockSequenceEntry
    ensures Sound(ParseBlockSequenceEntry(m), Shape(m), Measure(m) - 1)
  {
    hide Accept, GoodStack, Good, Shape, Frames, Marks, Return, NodeOrEmpty;
    if m.tokens != [] {
      if m.tokens[0].BlockEntryToken? {
        BlockSequenceNodeSound(m);
      } else if m.tokens[0].BlockEndToken? {
        EndSound(m, SequenceEnd, 1);
      }
    }
  }

  lemma IndentlessSequenceEntrySound(m: Machine)
    requires InState(m) && m.state == AtIndentlessSequenceEntry
    ensures Sound(ParseIndentlessSequenceEntry(m), Shape(m), Measure(m) - 1)
  {
    hide Accept, GoodStack, Good, Shape, Frames, Marks, Return, NodeOrEmpty;
    NextState(m, AtIndentlessSequenceEntry);
    if m.tokens != [] {
      NodeOrEmptySound(Drop(m, 1), (t: Token) => StartsMappingNode(t) && !t.BlockEntryToken?,
                       true, false, AtIndentlessSequenceEntry, Shape(m));
      EndSound(m, SequenceEnd, 0);
      assert Drop(m, 0) == m;
    }
  }

  lemma BlockMappingKeySound(m: Machine)
    requires InState(m) && m.state == AtBlockMappingKey
    ensures Sound(ParseBlockMappingKey(m), Shape(m), Measure(m) - 1)
  {
    hide Accept, GoodStack, Good, Shape, Frames, Marks, Return, NodeOrEmpty;
    NextState(m, AtBlockMappingValue);
    if m.tokens != [] {
      NodeOrEmptySound(Drop(m, 1), StartsMappingNode, true, true, AtBlockMappingValue, Shape(m));
      EndSound(m, MappingEnd, 1);
    }
  }

  lemma BlockMappingValueSound(m: Machine)
    requires InState(m) && m.state == AtBlockMappingValue
    ensures Sound(ParseBlockMappingValue(m), Shape(m), Measure(m) - 1)
  {
    hide Accept, GoodStack, Good, Shape, Frames, Marks, NodeOrEmpty;
    NextState(m, AtBlockMappingKey);
    if m.tokens != [] {
      NodeOrEmptySound(Drop(m, 1), StartsMappingNode, true, true, AtBlockMappingKey, Shape(m));
      EmptySound(m, AtBlockMappingKey, Shape(m), Measure(m) - 1);
    }
  }

  /** A pair in a flow sequence. */
  lemma FlowPairSound(m: Machine)
    requires InState(m) && m.state == AtFlowSequenceEntry && m.tokens != [] && m.tokens[0].KeyToken?
    ensures Sound(FlowSequenceItem(m), Shape(m), 3 * |m.tokens|)
  {
    hide GoodStack, Frames, Marks, Return, ParseNode;
    StackParts(m.states, m.state, AtFlowSequenceEntryMappingKey);
    assert Shape(m)[..|Shape(m)| - 1] + [InSequence, KeyNext]
        == [InStream] + Frames(m.states) + [InSequence, KeyNext];
  }

  lemma FlowSequenceItemSound(m: Machine)
    requires InState(m) && m.state == AtFlowSequenceEntry
    ensures Sound(FlowSequenceItem(m), Shape(m), 3 * |m.tokens|)
    ensures m.tokens != [] && m.tokens[0].FlowSequenceEndToken? ==>
      Sound(FlowSequenceItem(m), Shape(m), Measure(m) - 1)
  {
    hide Accept, Shape, GoodStack, Frames, Marks, ReturnMarked, ParseNode, Good, InState, PushState, Sound;
    if m.tokens == [] {
      FailedSound(NoToken, Shape(m), 3 * |m.tokens|);
    } else {
      if m.tokens[0].KeyToken? {
        FlowPairSound(m);
      } else if !m.tokens[0].FlowSequenceEndToken? {
        FlowItemSound(m);
      } else {
        FlowEndSound(m);
        SoundWithin(FlowSequenceItem(m), Shape(m), 3 * |m.tokens| - 1, 3 * |m.tokens|);
        SoundWithin(FlowSequenceItem(m), Shape(m), 3 * |m.tokens| - 1, Measure(m) - 1);
      }
    }
  }

  lemma FailedSound(failure: ParseError, open: seq<Frame>, budget: int)
    ensures Sound(Failed(failure), open, budget)
  {
  }

  lemma SoundWithin(o: Outcome, open: seq<Frame>, budget: int, more: int)
    requires Sound(o, open, budget) && budget <= more
    ensures Sound(o, open, more)
  {
    hide Good, Accept, Shape, Measure;
  }

  /** An entry of a flow sequence that is one node. */
  lemma FlowItemSound(m: Machine)
    requires InState(m) && m.state == AtFlowSequenceEntry
    ensures Sound(ParseNode(PushState(m, AtFlowSequenceEntry), false, false), Shape(m), 3 * |m.tokens|)
  {
    hide Accept, Shape, GoodStack, Frames, Marks, ParseNode, Good, Sound;
    NextState(m, AtFlowSequenceEntry);
    PushDue(m, AtFlowSequenceEntry, Shape(m), false);
    NodeSound(PushState(m, AtFlowSequenceEntry), false, false, Shape(m));
  }

  lemma FlowEndSound(m: Machine)
    requires InState(m) && m.state == AtFlowSequenceEntry && m.tokens != []
    ensures Sound(ReturnMarked(Drop(m, 1), SequenceEnd), Shape(m), 3 * |m.tokens| - 1)
  {
    hide Accept, Shape, GoodStack, Frames, Marks, ReturnMarked, Good, Sound;
    EndSound(m, SequenceEnd, 1);
  }

  lemma FlowSequenceEntrySound(m: Machine)
    requires InState(m) && m.state == AtFlowSequenceEntry
    ensures Sound(ParseFlowSequenceEntry(m, false), Shape(m), Measure(m) - 1)
    ensures Sound(ParseFlowSequenceEntry(m, true), Shape(m), 3 * |m.tokens|)
  {
    hide Accept, GoodStack, Good, Frames, Marks, FlowSequenceItem;
    StackParts(m.states, m.state, m.state);
    if m.tokens != [] {
      FlowSequenceItemSound(m);
      FlowSequenceItemSound(Drop(m, 1));
    }
  }

  lemma FlowSequenceEntryMappingKeySound(m: Machine)
    requires InState(m) && m.state == AtFlowSequenceEntryMappingKey
    ensures Sound(ParseFlowSequenceEntryMappingKey(m), Shape(m), Measure(m) - 1)
  {
    hide Accept, GoodStack, Good, Shape, Frames, Marks, ParseNode;
    var s := AtFlowSequenceEntryMappingValue;
    NextState(m, s);
    if m.tokens != [] {
      PushDue(m, s, Shape(m), false);
      NodeSound(PushState(m, s), false, false, Shape(m));
      EmptySound(Drop(m, 1), s, Shape(m), Measure(m) - 1);
    }
  }

  lemma FlowSequenceEntryMappingValueSound(m: Machine)
    requires InState(m) && m.state == AtFlowSequenceEntryMappingValue
    ensures Sound(ParseFlowSequenceEntryMappingValue(m), Shape(m), Measure(m) - 1)
  {
    hide Accept, GoodStack, Good, Shape, Frames, Marks, NodeOrEmpty;
    var s := AtFlowSequenceEntryMappingEnd;
    NextState(m, s);
    if m.tokens != [] {
      NodeOrEmptySound(Drop(m, 1), (t: Token) => !t.FlowEntryToken? && !t.FlowSequenceEndToken?,
                       false, false, s, Shape(m));
      EmptySound(m, s, Shape(m), Measure(m) - 1);
    }
  }

  lemma FlowSequenceEntryMappingEndSound(m: Machine)
    requires InState(m) && m.state == AtFlowSequenceEntryMappingEnd
    ensures Sound(ParseFlowSequenceEntryMappingEnd(m), Shape(m), Measure(m) - 1)
  {
    hide GoodStack, Frames, Marks;
    StackParts(m.states, m.state, AtFlowSequenceEntry);
    assert Shape(m)[..|Shape(m)| - 1] == [InStream] + Frames(m.states) + [InSequence];
  }

  lemma FlowMappingItemSound(m: Machine)
    requires InState(m) && m.state == AtFlowMappingKey
    ensures Sound(FlowMappingItem(m), Shape(m), 3 * |m.tokens|)
    ensures m.tokens != [] && m.tokens[0].FlowMappingEndToken? ==>
      Sound(FlowMappingItem(m), Shape(m), Measure(m) - 1)
  {
    hide Accept, GoodStack, Good, Shape, Frames, Marks, Return, ParseNode, NodeOrEmpty;
    if m.tokens != [] {
      if m.tokens[0].KeyToken? {
        NextState(m, AtFlowMappingValue);
        NodeOrEmptySound(Drop(m, 1), (t: Token) => !t.ValueToken? && !t.FlowEntryToken? && !t.FlowMappingEndToken?,
                         false, false, AtFlowMappingValue, Shape(m));
      } else if !m.tokens[0].FlowMappingEndToken? {
        NextState(m, AtFlowMappingEmptyValue);
        PushDue(m, AtFlowMappingEmptyValue, Shape(m), false);
        NodeSound(PushState(m, AtFlowMappingEmptyValue), false, false, Shape(m));
      } else {
        EndSound(m, MappingEnd, 1);
      }
    }
  }

  lemma FlowMappingKeySound(m: Machine)
    requires InState(m) && m.state == AtFlowMappingKey
    ensures Sound(ParseFlowMappingKey(m, false), Shape(m), Measure(m) - 1)
    ensures Sound(ParseFlowMappingKey(m, true), Shape(m), 3 * |m.tokens|)
  {
    hide Accept, GoodStack, Good, Frames, Marks, FlowMappingItem;
    StackParts(m.states, m.state, m.state);
    if m.tokens != [] {
      FlowMappingItemSound(m);
      FlowMappingItemSound(Drop(m, 1));
    }
  }

  lemma FlowMappingValueSound(m: Machine, empty: bool)
    requires InState(m) && m.state == if empty then AtFlowMappingEmptyValue else AtFlowMappingValue
    ensures Sound(ParseFlowMappingValue(m, empty), Shape(m), Measure(m) - 1)
  {
    hide Accept, GoodStack, Good, Shape, Frames, Marks, NodeOrEmpty;
    NextState(m, AtFlowMappingKey);
    if m.tokens != [] {
      NodeOrEmptySound(Drop(m, 1), (t: Token) => !t.FlowEntryToken? && !t.FlowMappingEndToken?,
                       false, false, AtFlowMappingKey, Shape(m));
      EmptySound(m, AtFlowMappingKey, Shape(m), Measure(m) - 1);
    }
  }

  // ---------- documents ----------

  predicate DirectivesOnly(m: Machine, m1: Machine) {
    && m1.(directives := m.directives, tokens := m.tokens) == m
    && |m1.tokens| <= |m.tokens|
    && (m.tokens != [] && !EndsContent(m.tokens[0]) ==> m1.tokens == m.tokens)
  }

  lemma {:induction false} DirectivesKeep(m: Machine, version: bool)
    ensures var r := ProcessDirectives(m, version);
      r.Ok? ==> DirectivesOnly(m, r.value)
    decreases |m.tokens|
  {
    if m.tokens != [] {
      match m.tokens[0]
      case VersionDirectiveToken(_, _) => DirectivesKeep(Drop(m, 1), true);
      case TagDirectiveToken(handle, prefix) =>
        DirectivesKeep(Drop(m, 1).(directives := m.directives + [TagDirective(handle, prefix)]), version);
      case _ =>
    }
  }

  lemma {:induction false} EndsSkipped(tokens: seq<Token>)
    ensures |SkipDocumentEnds(tokens)| <= |tokens|
  {
    if tokens != [] && tokens[0].DocumentEndToken? { EndsSkipped(tokens[1..]); }
  }

  lemma DocumentStartSound(m: Machine, implicit: bool)
    requires m.state == (if implicit then AtImplicitDocumentStart else AtDocumentStart) && Good(m)
    ensures Sound(ParseDocumentStart(m, implicit), [InStream], Measure(m) - 1)
  {
    hide ProcessDirectives, SkipDocumentEnds;
    var m1 := if implicit then m else m.(tokens := SkipDocumentEnds(m.tokens));
    EndsSkipped(m.tokens);
    DirectivesKeep(m1, false);
  }

  lemma DocumentContentSound(m: Machine)
    requires BeforeRoot(m.state) && Good(m)
    ensures m.state == AtDocumentContent ==> Sound(ParseDocumentContent(m), Shape(m), Measure(m) - 1)
    ensures Sound(ParseNode(m, true, false), Shape(m), Measure(m) - 1)
  {
    hide ParseNode;
    assert Frames([]) == [] && Marks([]) == 0;
    SnocFrames([], AtDocumentEnd);
    assert [] + [AtDocumentEnd] == [AtDocumentEnd];
    assert Frames(m.states) == [DocumentDone] && Marks(m.states) == 0;
    var open := [InStream, DocumentOpen];
    assert [InStream] + Frames(m.states) == open[..1] + [AfterNode(open[1])];
    NodeSound(m, true, false, open);
    ReturnSound(m, EmptyScalar, open, 3 * |m.tokens| + 1);
  }

  lemma DocumentEndSound(m: Machine)
    requires InState(m) && m.state == AtDocumentEnd
    ensures Sound(ParseDocumentEnd(m), Shape(m), Measure(m) - 1)
  {
    StackParts(m.states, m.state, m.state);
    assert Shape(m) == [InStream, DocumentDone] && Shape(m)[..1] == [InStream];
  }

  // ---------- every step ----------

  /** Passing the start token enters the collection. */
  lemma EnterSound(m: Machine)
    requires Good(m) && IsFirst(m.state)
    ensures m.tokens != []
    ensures var m1 := PassStart(m, Entered(m.state));
      InState(m1) && Shape(m1) == Shape(m) && 3 * |m1.tokens| + 3 == 3 * |m.tokens|
  {
  }

  lemma FirstSound(m: Machine)
    requires Good(m) && IsFirst(m.state)
    ensures Sound(Step(m), Shape(m), Measure(m) - 1)
  {
    hide Accept, GoodStack, Good, Shape, Frames, Marks, ParseBlockSequenceEntry, ParseBlockMappingKey,
      ParseFlowSequenceEntry, ParseFlowMappingKey;
    EnterSound(m);
    var m1 := PassStart(m, Entered(m.state));
    match m.state
    case AtBlockSequenceFirstEntry => BlockSequenceEntrySound(m1);
    case AtBlockMappingFirstKey => BlockMappingKeySound(m1);
    case AtFlowSequenceFirstEntry => FlowSequenceEntrySound(m1);
    case _ => FlowMappingKeySound(m1);
  }

  /**
   From a good state every step is good: no empty stack is popped, the event is one the
   grammar of events allows where the stream stands, the stack of states is again the list of
   open collections, and the measure falls.
   */
  lemma StepSound(m: Machine)
    requires Good(m) && m.state != AtEnd
    ensures Sound(Step(m), Shape(m), Measure(m) - 1)
  {
    hide Accept, GoodStack, Shape, Frames, Marks;
    if IsFirst(m.state) {
      FirstSound(m);
    } else if BeforeRoot(m.state) {
      DocumentContentSound(m);
    } else if !BetweenDocuments(m.state) {
      assert InState(m);
      EntrySound(m);
    } else {
      StreamSound(m);
    }
  }

  lemma StreamSound(m: Machine)
    requires Good(m) && BetweenDocuments(m.state) && m.state != AtEnd
    ensures Sound(Step(m), Shape(m), Measure(m) - 1)
  {
    hide ParseDocumentStart;
    match m.state
    case AtImplicitDocumentStart => DocumentStartSound(m, true);
    case AtDocumentStart => DocumentStartSound(m, false);
    case AtStreamStart =>
  }

  lemma EntrySound(m: Machine)
    requires InState(m)
    ensures Sound(Step(m), Shape(m), Measure(m) - 1)
  {
    hide Accept, GoodStack, Good, Shape, Frames, Marks;
    var full := m.states + [m.state];
    StackParts(m.states, m.state, m.state);
    match m.state
    case AtDocumentEnd => DocumentEndSound(m);
    case AtBlockSequenceEntry => BlockSequenceEntrySound(m);
    case AtIndentlessSequenceEntry => IndentlessSequenceEntrySound(m);
    case AtBlockMappingKey => BlockMappingKeySound(m);
    case AtBlockMappingValue => BlockMappingValueSound(m);
    case AtFlowSequenceEntry => FlowSequenceEntrySound(m);
    case AtFlowSequenceEntryMappingKey => FlowSequenceEntryMappingKeySound(m);
    case AtFlowSequenceEntryMappingValue => FlowSequenceEntryMappingValueSound(m);
    case AtFlowSequenceEntryMappingEnd => FlowSequenceEntryMappingEndSound(m);
    case AtFlowMappingKey => FlowMappingKeySound(m);
    case AtFlowMappingValue => FlowMappingValueSound(m, false);
    case AtFlowMappingEmptyValue => FlowMappingValueSound(m, true);
    case _ =>
  }

  // ---------- whole runs ----------

  datatype Finish = Complete(last: Machine) | Stopped(error: ParseError) | Broken

  datatype Run = Run(events: seq<Event>, finish: Finish)

  /** Parses until the stream ends or an error is met. */
  function ParseAll(m: Machine): Run
    requires Good(m)
    decreases Measure(m)
  {
    if m.state == AtEnd then Run([], Complete(m))
    else
      StepSound(m);
      match Step(m)
      case Panic => Run([], Broken)
      case Failed(e) => Run([], Stopped(e))
      case Produced(event, next) =>
        var rest := ParseAll(next);
        Run([event] + rest.events, rest.finish)
  }

  predicate CompleteRun(open: seq<Frame>, r: Run) {
    r.finish.Complete? ==>
      Brackets(open, r.events) == Some([Finished]) && r.finish.last.states == [] && r.finish.last.marks == 0
  }

  lemma {:induction false} RunSound(m: Machine)
    requires Good(m)
    ensures var r := ParseAll(m);
      && r.finish != Broken
      && |r.events| <= Measure(m)
      && Brackets(Shape(m), r.events).Some?
      && CompleteRun(Shape(m), r)
    decreases Measure(m)
  {
    if m.state != AtEnd {
      StepSound(m);
      match Step(m) {
        case Failed(_) =>
        case Produced(event, next) =>
          RunSound(next);
          var rest := ParseAll(next);
          assert ([event] + rest.events)[1..] == rest.events;
      }
    }
  }

  /**
   For any tokens whatever: the parser never pops an empty stack of states or marks; it ends
   after at most three events for a token; the events are well bracketed, keys and values
   alternating in every mapping; and if no error was met, the stream is closed and both stacks
   are empty at the end.
   */
  lemma AnyTokensParseSafely(tokens: seq<Token>)
    ensures Good(StartMachine(tokens))
    ensures var r := ParseAll(StartMachine(tokens));
      && r.finish != Broken
      && |r.events| <= 3 * |tokens|
      && Brackets([Opening], r.events).Some?
      && CompleteRun([Opening], r)
  {
    RunSound(StartMachine(tokens));
  }
}
