/**
 The emitter's state machine and its queue of events. An event is dispatched once enough of
 those behind it are known; comments, anchors, tags and directives play no part here.
 */
module Emitter {
  import opened Chars
  import opened Pens
  import opened Analysis
  import opened ScalarWriters
  import opened Options
  import opened Resolve
  import opened Layout
  import Unicode

  datatype EmitEvent =
    | StreamStart
    | StreamEnd
    | DocumentStart(implicit: bool)
    | DocumentEnd(implicit: bool)
    | Scalar(value: string, style: Style)
    | SequenceStart(flow: bool)
    | SequenceEnd
    | MappingStart(flow: bool)
    | MappingEnd

  datatype EmitState =
    | AtStreamStart
    | AtFirstDocumentStart
    | AtDocumentStart
    | AtDocumentContent
    | AtDocumentEnd
    | AtFlowSequenceFirstItem
    | AtFlowSequenceItem
    | AtFlowMappingFirstKey
    | AtFlowMappingKey
    | AtFlowMappingSimpleValue
    | AtFlowMappingValue
    | AtBlockSequenceFirstItem
    | AtBlockSequenceItem
    | AtBlockMappingFirstKey
    | AtBlockMappingKey
    | AtBlockMappingSimpleValue
    | AtBlockMappingValue
    | AtEnd

  datatype EmitError =
    | ExpectedStreamStart
    | ExpectedDocumentStart
    | ExpectedDocumentEnd
    | ExpectedNode
    | NothingAfterStreamEnd

  /** The emitter apart from its queue. */
  datatype Machine = Machine(state: EmitState, states: seq<EmitState>, indent: int, indents: seq<int>,
                             flow: int, pen: Pen)

  /** A pop of an empty stack is a Panic. */
  datatype Outcome = Done(next: Machine) | Failed(error: EmitError) | Panic

  const StartMachine := Machine(AtStreamStart, [], 0, [], 0, StartPen)

  // ---------- helpers ----------

  function Return(m: Machine): Outcome {
    if m.states == [] then Panic
    else
      var last := |m.states| - 1;
      Done(m.(state := m.states[last], states := m.states[..last]))
  }

  /** Back to the indentation outside, and to the state pushed last. */
  function ReturnIndent(m: Machine): Outcome {
    if m.indents == [] then Panic
    else
      var last := |m.indents| - 1;
      Return(m.(indent := m.indents[last], indents := m.indents[..last]))
  }

  function Top(m: Machine): EmitState
    requires m.states != []
  {
    m.states[|m.states| - 1]
  }

  predicate InListItem(m: Machine) {
    m.states != [] && Top(m) == AtBlockSequenceItem
  }

  /** Inside a list the indentation depends on the state pushed last. */
  predicate MayIncrease(m: Machine) {
    m.indent < 0 || m.states != []
  }

  function Increase(m: Machine, flow: bool, cfg: Config): Machine
    requires ValidConfig(cfg)
  {
    m.(indents := m.indents + [m.indent], indent := IncreaseIndent(m.indent, flow, InListItem(m), cfg))
  }

  function Push(m: Machine, s: EmitState): Machine {
    m.(states := m.states + [s])
  }

  function Write(m: Machine, text: string, needWhitespace: bool, isWhitespace: bool, isIndention: bool): Machine {
    m.(pen := WriteIndicator(m.pen, text, needWhitespace, isWhitespace, isIndention))
  }

  function NewLine(m: Machine): Machine {
    m.(pen := WriteIndent(m.pen, m.indent))
  }

  // ---------- lookahead ----------

  predicate EmptySequenceNext(q: seq<EmitEvent>) {
    |q| >= 2 && q[0].SequenceStart? && q[1].SequenceEnd?
  }

  predicate EmptyMappingNext(q: seq<EmitEvent>) {
    |q| >= 2 && q[0].MappingStart? && q[1].MappingEnd?
  }

  /** The node at the front of the queue may be a key without '?'. */
  predicate CheckSimpleKey(q: seq<EmitEvent>)
    requires q != []
  {
    match q[0]
    case Scalar(value, _) => SimpleKeyAllowed(value)
    case SequenceStart(_) => EmptySequenceNext(q)
    case MappingStart(_) => EmptyMappingNext(q)
    case _ => false
  }

  // ---------- nodes ----------

  function EmitScalarEvent(m: Machine, v: string, style: Style, root: bool, simpleKey: bool, cfg: Config): Outcome
    requires ValidConfig(cfg)
  {
    if !MayIncrease(m) then Panic
    else
      var m1 := Increase(m, true, cfg);
      var selected := SelectStyle(style, v, simpleKey, m.flow > 0, cfg);
      ReturnIndent(m1.(pen := WriteScalar(m1.pen, v, selected, root, !simpleKey, m1.indent, cfg)))
  }

  function EmitNode(m: Machine, q: seq<EmitEvent>, root: bool, simpleKey: bool, cfg: Config): Outcome
    requires q != [] && ValidConfig(cfg)
  {
    match q[0]
    case Scalar(value, style) => EmitScalarEvent(m, value, style, root, simpleKey, cfg)
    case SequenceStart(flow) =>
      if m.flow > 0 || flow || EmptySequenceNext(q) then Done(m.(state := AtFlowSequenceFirstItem))
      else Done(m.(state := AtBlockSequenceFirstItem))
    case MappingStart(flow) =>
      if m.flow > 0 || flow || EmptyMappingNext(q) then Done(m.(state := AtFlowMappingFirstKey))
      else Done(m.(state := AtBlockMappingFirstKey))
    case _ => Failed(ExpectedNode)
  }

  // ---------- documents ----------

  function EmitStreamStart(m: Machine, q: seq<EmitEvent>): Outcome
    requires q != []
  {
    if !q[0].StreamStart? then Failed(ExpectedStreamStart)
    else
      var p := m.pen.(line := 0, column := 0, whitespace := true, indention := true);
      Done(m.(indent := -1, pen := p, state := AtFirstDocumentStart))
  }

  function EmitDocumentStart(m: Machine, q: seq<EmitEvent>, first: bool): Outcome
    requires q != []
  {
    match q[0]
    case DocumentStart(implicit) =>
      if first && implicit then Done(m.(state := AtDocumentContent))
      else Done(NewLine(Write(NewLine(m), "---", true, false, false)).(state := AtDocumentContent))
    case StreamEnd =>
      var m1 := if m.pen.openEnded then NewLine(Write(m, "...", true, false, false)) else m;
      Done(m1.(state := AtEnd))
    case _ => Failed(ExpectedDocumentStart)
  }

  function EmitDocumentEnd(m: Machine, q: seq<EmitEvent>): Outcome
    requires q != []
  {
    match q[0]
    case DocumentEnd(implicit) =>
      var m1 := NewLine(m);
      var m2 := if implicit then m1 else NewLine(Write(m1, "...", true, false, false));
      Done(m2.(state := AtDocumentStart))
    case _ => Failed(ExpectedDocumentEnd)
  }

  // ---------- flow collections ----------

  /** The bracket is written and the indentation increased when the first event inside is met. */
  function EnterFlow(m: Machine, bracket: string, entered: EmitState, cfg: Config): Machine
    requires ValidConfig(cfg)
  {
    var m1 := Increase(Write(m, bracket, true, true, false), true, cfg);
    m1.(flow := m.flow + 1, state := entered)
  }

  function LeaveFlow(m: Machine, bracket: string, mayBreak: bool): Outcome {
    if m.indents == [] then Panic
    else
      var last := |m.indents| - 1;
      var m1 := m.(flow := m.flow - 1, indent := m.indents[last], indents := m.indents[..last]);
      var m2 := if mayBreak && m1.pen.column == 0 then NewLine(m1) else m1;
      Return(Write(m2, bracket, false, false, false))
  }

  /** Between the entries of a flow collection. */
  function FlowGap(m: Machine, first: bool, cfg: Config): Machine {
    var m1 := if first then m else Write(m, ",", false, false, false);
    var m2 := if m1.pen.column == 0 then NewLine(m1) else m1;
    if m2.pen.column > cfg.bestWidth then NewLine(m2) else m2
  }

  function EmitFlowSequenceItem(m: Machine, q: seq<EmitEvent>, first: bool, cfg: Config): Outcome
    requires q != [] && ValidConfig(cfg)
  {
    if q[0].SequenceEnd? then LeaveFlow(m, "]", true)
    else EmitNode(Push(FlowGap(m, first, cfg), AtFlowSequenceItem), q, false, false, cfg)
  }

  function EmitFlowMappingKey(m: Machine, q: seq<EmitEvent>, first: bool, cfg: Config): Outcome
    requires q != [] && ValidConfig(cfg)
  {
    if q[0].MappingEnd? then LeaveFlow(m, "}", false)
    else
      var m1 := FlowGap(m, first, cfg);
      if CheckSimpleKey(q) then EmitNode(Push(m1, AtFlowMappingSimpleValue), q, false, true, cfg)
      else EmitNode(Push(Write(m1, "?", true, false, false), AtFlowMappingValue), q, false, false, cfg)
  }

  function EmitFlowMappingValue(m: Machine, q: seq<EmitEvent>, simple: bool, cfg: Config): Outcome
    requires q != [] && ValidConfig(cfg)
  {
    var m1 := if !simple && m.pen.column > cfg.bestWidth then NewLine(m) else m;
    EmitNode(Push(Write(m1, ":", !simple, false, false), AtFlowMappingKey), q, false, false, cfg)
  }

  // ---------- block collections ----------

  function EnterBlock(m: Machine, entered: EmitState, cfg: Config): Machine
    requires ValidConfig(cfg)
  {
    Increase(m, false, cfg).(state := entered)
  }

  function EmitBlockSequenceItem(m: Machine, q: seq<EmitEvent>, cfg: Config): Outcome
    requires q != [] && ValidConfig(cfg)
  {
    if q[0].SequenceEnd? then ReturnIndent(m)
    else EmitNode(Push(Write(NewLine(m), "-", true, false, true), AtBlockSequenceItem), q, false, false, cfg)
  }

  function EmitBlockMappingKey(m: Machine, q: seq<EmitEvent>, cfg: Config): Outcome
    requires q != [] && ValidConfig(cfg)
  {
    if q[0].MappingEnd? then ReturnIndent(m)
    else if CheckSimpleKey(q) then EmitNode(Push(NewLine(m), AtBlockMappingSimpleValue), q, false, true, cfg)
    else EmitNode(Push(Write(NewLine(m), "?", true, false, true), AtBlockMappingValue), q, false, false, cfg)
  }

  function EmitBlockMappingValue(m: Machine, q: seq<EmitEvent>, simple: bool, cfg: Config): Outcome
    requires q != [] && ValidConfig(cfg)
  {
    var m1 := if simple then Write(m, ":", false, false, false) else Write(NewLine(m), ":", true, false, true);
    EmitNode(Push(m1, AtBlockMappingKey), q, false, false, cfg)
  }

  // ---------- the state machine ----------

  /** Dispatches the first event of the queue. */
  function Dispatch(m: Machine, q: seq<EmitEvent>, cfg: Config): Outcome
    requires q != [] && ValidConfig(cfg)
  {
    match m.state
    case AtStreamStart => EmitStreamStart(m, q)
    case AtFirstDocumentStart => EmitDocumentStart(m, q, true)
    case AtDocumentStart => EmitDocumentStart(m, q, false)
    case AtDocumentContent => EmitNode(Push(m, AtDocumentEnd), q, true, false, cfg)
    case AtDocumentEnd => EmitDocumentEnd(m, q)
    case AtFlowSequenceFirstItem =>
      if !MayIncrease(m) then Panic
      else EmitFlowSequenceItem(EnterFlow(m, "[", AtFlowSequenceItem, cfg), q, true, cfg)
    case AtFlowSequenceItem => EmitFlowSequenceItem(m, q, false, cfg)
    case AtFlowMappingFirstKey =>
      if !MayIncrease(m) then Panic
      else EmitFlowMappingKey(EnterFlow(m, "{", AtFlowMappingKey, cfg), q, true, cfg)
    case AtFlowMappingKey => EmitFlowMappingKey(m, q, false, cfg)
    case AtFlowMappingSimpleValue => EmitFlowMappingValue(m, q, true, cfg)
    case AtFlowMappingValue => EmitFlowMappingValue(m, q, false, cfg)
    case AtBlockSequenceFirstItem =>
      if !MayIncrease(m) then Panic else EmitBlockSequenceItem(EnterBlock(m, AtBlockSequenceItem, cfg), q, cfg)
    case AtBlockSequenceItem => EmitBlockSequenceItem(m, q, cfg)
    case AtBlockMappingFirstKey =>
      if !MayIncrease(m) then Panic else EmitBlockMappingKey(EnterBlock(m, AtBlockMappingKey, cfg), q, cfg)
    case AtBlockMappingKey => EmitBlockMappingKey(m, q, cfg)
    case AtBlockMappingSimpleValue => EmitBlockMappingValue(m, q, true, cfg)
    case AtBlockMappingValue => EmitBlockMappingValue(m, q, false, cfg)
    case AtEnd => Failed(NothingAfterStreamEnd)
  }

  // ---------- the queue ----------

  predicate Starts(e: EmitEvent) {
    e.StreamStart? || e.DocumentStart? || e.SequenceStart? || e.MappingStart?
  }

  predicate Ends(e: EmitEvent) {
    e.StreamEnd? || e.DocumentEnd? || e.SequenceEnd? || e.MappingEnd?
  }

  /** Some prefix of the queue from i on closes all that it opens. */
  predicate Closes(q: seq<EmitEvent>, i: nat, level: int)
    requires i <= |q|
    decreases |q| - i
  {
    if i == |q| then false
    else
      var l := if Starts(q[i]) then level + 1 else if Ends(q[i]) then level - 1 else level;
      l == 0 || Closes(q, i + 1, l)
  }

  function Accumulate(e: EmitEvent): nat {
    match e
    case DocumentStart(_) => 1
    case SequenceStart(_) => 2
    case MappingStart(_) => 3
    case _ => 0
  }

  predicate NeedMoreEvents(q: seq<EmitEvent>) {
    q == [] || (Accumulate(q[0]) > 0 && |q| <= Accumulate(q[0]) && !Closes(q, 0, 0))
  }

  /** The emitter with the events it has not dispatched yet. */
  datatype Queued = Queued(machine: Machine, queue: seq<EmitEvent>)

  function Drain(m: Machine, q: seq<EmitEvent>, cfg: Config): Result<Queued, Outcome>
    requires ValidConfig(cfg)
    decreases |q|
  {
    if NeedMoreEvents(q) then Ok(Queued(m, q))
    else
      match Dispatch(m, q, cfg)
      case Done(next) => Drain(next, q[1..], cfg)
      case other => Err(other)
  }

  /** The emitter is handed one more event. */
  function Emit(e: Queued, event: EmitEvent, cfg: Config): Result<Queued, Outcome>
    requires ValidConfig(cfg)
  {
    Drain(e.machine, e.queue + [event], cfg)
  }

  function EmitAll(e: Queued, events: seq<EmitEvent>, cfg: Config): Result<Queued, Outcome>
    requires ValidConfig(cfg)
    decreases |events|
  {
    if events == [] then Ok(e)
    else
      match Emit(e, events[0], cfg)
      case Err(o) => Err(o)
      case Ok(e1) => EmitAll(e1, events[1..], cfg)
  }
}
