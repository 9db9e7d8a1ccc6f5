/**
 The emitter as it runs: events go into its queue, and each that is ready changes the stacks
 and writes to the output; and the recursive printing of a JSON document.
 */
module YamlEmitter {
  import opened Chars
  import opened Unicode
  import opened ByteText
  import opened Pens
  import opened Options
  import opened Resolve
  import opened Tokens
  import opened Layout
  import opened ScalarAnalysis
  import Styles = Analysis
  import O = EmitterOutput
  import E = Emitter
  import EmitterRun

  class YamlEmitter {
    const cfg: Config
    const out: O.Output
    var state: E.EmitState
    var states: seq<E.EmitState>
    var indent: int
    var indents: seq<int>
    var flow: int
    var events: seq<E.EmitEvent>
    var head: nat
    var scalar: Styles.Analysis     // of the scalar at the head

    constructor (cfg: Config)
      requires ValidConfig(cfg)
      ensures Valid() && Queued() == E.Queued(E.StartMachine, []) && this.cfg == cfg
      ensures fresh(out) && fresh(out.buffer)
    {
      this.cfg := cfg;
      out := new O.Output(cfg);
      state, states, indent, indents, flow := E.AtStreamStart, [], 0, [], 0;
      events, head, scalar := [], 0, Styles.Analysis(false, false, false, false, false);
    }

    ghost predicate Valid()
      reads this, out, out.buffer
    {
      out.Valid() && out.cfg == cfg && ValidConfig(cfg) && head <= |events|
    }

    ghost function View(): E.Machine
      reads this, out
    {
      E.Machine(state, states, indent, indents, flow, out.Written())
    }

    ghost function Queue(): seq<E.EmitEvent>
      requires head <= |events|
      reads this
    {
      events[head..]
    }

    ghost function Queued(): E.Queued
      requires head <= |events|
      reads this, out
    {
      E.Queued(View(), Queue())
    }

    /** The state function did what the machine does, or reported an error as it does. */
    ghost predicate Agrees(o: E.Outcome, ok: bool)
      reads this, out
    {
      match o
      case Done(next) => ok && View() == next
      case Failed(_) => !ok
      case Panic => false
    }

    /** The event at the head has been looked at before it is dispatched. */
    ghost predicate Analyzed()
      requires head <= |events|
      reads this
    {
      head < |events| && (events[head].Scalar? ==> scalar == Styles.Analyze(events[head].value, cfg))
    }

    // ---------- stacks and text ----------

    method PopState()
      requires states != []
      modifies this`state, this`states
      ensures state == old(states)[|old(states)| - 1] && states == old(states)[..|old(states)| - 1]
    {
      state := states[|states| - 1];
      states := states[..|states| - 1];
    }

    method PopIndent()
      requires indents != []
      modifies this`indent, this`indents
      ensures indent == old(indents)[|old(indents)| - 1] && indents == old(indents)[..|old(indents)| - 1]
    {
      indent := indents[|indents| - 1];
      indents := indents[..|indents| - 1];
    }

    method IncreaseIndent(flowStyle: bool)
      requires ValidConfig(cfg) && E.MayIncrease(View())
      modifies this`indent, this`indents
      ensures View() == E.Increase(old(View()), flowStyle, cfg)
    {
      indents := indents + [indent];
      if indent < 0 {
        if flowStyle {
          indent := cfg.bestIndent;
        } else {
          indent := 0;
        }
      } else if states[|states| - 1] == E.AtBlockSequenceItem {
        indent := indent + 2;
      } else {
        indent := cfg.bestIndent * ((indent + cfg.bestIndent) / cfg.bestIndent);
      }
    }

    method Indicator(text: string, needWhitespace: bool, isWhitespace: bool, isIndention: bool)
      requires Valid() && forall j :: 0 <= j < |text| ==> IsAscii(text[j])
      modifies out, out.buffer
      ensures Valid() && View() == E.Write(old(View()), text, needWhitespace, isWhitespace, isIndention)
    {
      out.WriteIndicator(text, needWhitespace, isWhitespace, isIndention);
    }

    method Break()
      requires Valid()
      modifies out, out.buffer
      ensures Valid() && View() == E.NewLine(old(View()))
    {
      out.WriteIndent(indent);
    }

    // ---------- lookahead ----------

    method CheckEmptySequence() returns (empty: bool)
      requires head < |events|
      ensures empty == E.EmptySequenceNext(Queue())
    {
      empty := |events| - head >= 2 && events[head].SequenceStart? && events[head + 1].SequenceEnd?;
    }

    method CheckEmptyMapping() returns (empty: bool)
      requires head < |events|
      ensures empty == E.EmptyMappingNext(Queue())
    {
      empty := |events| - head >= 2 && events[head].MappingStart? && events[head + 1].MappingEnd?;
    }

    method CheckSimpleKey() returns (simple: bool)
      requires head < |events| && Analyzed()
      ensures simple == E.CheckSimpleKey(Queue())
    {
      match events[head]
      case Scalar(value, _) =>
        if scalar.multiline {
          return false;
        }
        simple := |EncodeAll(value)| <= 128;
      case SequenceStart(_) => simple := CheckEmptySequence();
      case MappingStart(_) => simple := CheckEmptyMapping();
      case _ => simple := false;
    }

    // ---------- nodes ----------

    method SelectScalarStyle(value: string, requested: Style, simpleKey: bool) returns (style: Style)
      requires scalar == Styles.Analyze(value, cfg)
      ensures style == SelectStyle(requested, value, simpleKey, flow > 0, cfg)
    {
      hide Styles.Analyze;
      style := requested;
      if simpleKey && scalar.multiline {
        style := DoubleQuoted;
      }
      if style == Plain {
        if (flow > 0 && !scalar.flowPlainAllowed) || (flow <= 0 && !scalar.blockPlainAllowed) {
          style := SingleQuoted;
        }
        if |value| == 0 && (flow > 0 || simpleKey) {
          style := SingleQuoted;
        }
      }
      if style == SingleQuoted && !scalar.singleQuotedAllowed {
        style := DoubleQuoted;
      }
    }

    method ProcessScalar(value: string, style: Style, root: bool, simpleKey: bool)
      requires Valid()
      modifies out, out.buffer
      ensures Valid()
      ensures View()
           == old(View()).(pen := WriteScalar(old(out.Written()), value, style, root, !simpleKey, indent, cfg))
    {
      var bytes := EncodeAll(value);
      match style
      case Plain => out.WritePlain(bytes, !simpleKey, root, indent, value);
      case SingleQuoted => out.WriteSingleQuoted(bytes, !simpleKey, indent, value);
      case DoubleQuoted => out.WriteDoubleQuoted(bytes, !simpleKey, indent, value);
    }

    method EmitScalar(value: string, requested: Style, root: bool, simpleKey: bool) returns (ok: bool)
      requires Valid() && scalar == Styles.Analyze(value, cfg)
      requires !E.EmitScalarEvent(View(), value, requested, root, simpleKey, cfg).Panic?
      modifies this, out, out.buffer
      ensures Valid() && events == old(events) && head == old(head)
      ensures Agrees(E.EmitScalarEvent(old(View()), value, requested, root, simpleKey, cfg), ok)
    {
      hide WriteScalar, SelectStyle, Styles.Analyze;
      var style := SelectScalarStyle(value, requested, simpleKey);
      IncreaseIndent(true);
      ProcessScalar(value, style, root, simpleKey);
      PopIndent();
      PopState();
      ok := true;
    }

    method EmitNode(root: bool, simpleKey: bool) returns (ok: bool)
      requires Valid() && Analyzed() && !E.EmitNode(View(), Queue(), root, simpleKey, cfg).Panic?
      modifies this, out, out.buffer
      ensures Valid() && events == old(events) && head == old(head)
      ensures Agrees(E.EmitNode(old(View()), old(Queue()), root, simpleKey, cfg), ok)
    {
      hide E.EmitScalarEvent, Styles.Analyze;
      match events[head]
      case Scalar(value, style) => ok := EmitScalar(value, style, root, simpleKey);
      case SequenceStart(flowStyle) =>
        var empty := CheckEmptySequence();
        state := if flow > 0 || flowStyle || empty then E.AtFlowSequenceFirstItem else E.AtBlockSequenceFirstItem;
        ok := true;
      case MappingStart(flowStyle) =>
        var empty := CheckEmptyMapping();
        state := if flow > 0 || flowStyle || empty then E.AtFlowMappingFirstKey else E.AtBlockMappingFirstKey;
        ok := true;
      case _ => ok := false;
    }

    // ---------- documents ----------

    method EmitStreamStart() returns (ok: bool)
      requires Valid() && head < |events|
      modifies this, out
      ensures Valid() && events == old(events) && head == old(head)
      ensures Agrees(E.EmitStreamStart(old(View()), old(Queue())), ok)
    {
      if !events[head].StreamStart? {
        return false;
      }
      indent := -1;
      out.line, out.column, out.whitespace, out.indention := 0, 0, true, true;
      state := E.AtFirstDocumentStart;
      ok := true;
    }

    method EmitDocumentStart(first: bool) returns (ok: bool)
      requires Valid() && head < |events|
      modifies this, out, out.buffer
      ensures Valid() && events == old(events) && head == old(head)
      ensures Agrees(E.EmitDocumentStart(old(View()), old(Queue()), first), ok)
      ensures ok && events[head].StreamEnd? ==> out.bufferPos == 0
    {
      hide E.NewLine, E.Write, EncodeAll, Styles.Analyze;
      if events[head].DocumentStart? {
        if !(first && events[head].implicit) {
          Break();
          Indicator("---", true, false, false);
          Break();
        }
        state := E.AtDocumentContent;
        return true;
      }
      if events[head].StreamEnd? {
        if out.openEnded {
          Indicator("...", true, false, false);
          Break();
        }
        out.Flush();
        state := E.AtEnd;
        return true;
      }
      ok := false;
    }

    method EmitDocumentEnd() returns (ok: bool)
      requires Valid() && head < |events|
      modifies this, out, out.buffer
      ensures Valid() && events == old(events) && head == old(head)
      ensures Agrees(E.EmitDocumentEnd(old(View()), old(Queue())), ok)
    {
      hide E.NewLine, E.Write, EncodeAll, Styles.Analyze;
      if !events[head].DocumentEnd? {
        return false;
      }
      Break();
      if !events[head].implicit {
        Indicator("...", true, false, false);
        Break();
      }
      out.Flush();
      state := E.AtDocumentStart;
      ok := true;
    }

    // ---------- flow collections ----------

    method EnterFlow(bracket: string, entered: E.EmitState)
      requires Valid() && E.MayIncrease(View()) && forall j :: 0 <= j < |bracket| ==> IsAscii(bracket[j])
      modifies this, out, out.buffer
      ensures Valid() && events == old(events) && head == old(head) && scalar == old(scalar)
      ensures View() == E.EnterFlow(old(View()), bracket, entered, cfg)
    {
      hide WriteIndicator;
      Indicator(bracket, true, true, false);
      IncreaseIndent(true);
      flow := flow + 1;
      state := entered;
    }

    method LeaveFlow(bracket: string, mayBreak: bool)
      requires Valid() && !E.LeaveFlow(View(), bracket, mayBreak).Panic?
      requires forall j :: 0 <= j < |bracket| ==> IsAscii(bracket[j])
      modifies this, out, out.buffer
      ensures Valid() && events == old(events) && head == old(head)
      ensures Agrees(E.LeaveFlow(old(View()), bracket, mayBreak), true)
    {
      hide WriteIndicator, WriteIndent, EncodeAll, E.Write, E.NewLine;
      flow := flow - 1;
      PopIndent();
      if mayBreak && out.column == 0 {
        Break();
      }
      Indicator(bracket, false, false, false);
      PopState();
    }

    method FlowGap(first: bool)
      requires Valid()
      modifies out, out.buffer
      ensures Valid() && View() == E.FlowGap(old(View()), first, cfg)
    {
      hide WriteIndicator, WriteIndent;
      if !first {
        Indicator(",", false, false, false);
      }
      if out.column == 0 {
        Break();
      }
      if out.column > cfg.bestWidth {
        Break();
      }
    }

    method EmitFlowSequenceItem(first: bool) returns (ok: bool)
      requires Valid() && Analyzed() && !E.EmitFlowSequenceItem(View(), Queue(), first, cfg).Panic?
      modifies this, out, out.buffer
      ensures Valid() && events == old(events) && head == old(head)
      ensures Agrees(E.EmitFlowSequenceItem(old(View()), old(Queue()), first, cfg), ok)
    {
      hide E.EmitNode, E.LeaveFlow, E.FlowGap;
      if events[head].SequenceEnd? {
        LeaveFlow("]", true);
        return true;
      }
      FlowGap(first);
      states := states + [E.AtFlowSequenceItem];
      ok := EmitNode(false, false);
    }

    method EmitFlowMappingKey(first: bool) returns (ok: bool)
      requires Valid() && Analyzed() && !E.EmitFlowMappingKey(View(), Queue(), first, cfg).Panic?
      modifies this, out, out.buffer
      ensures Valid() && events == old(events) && head == old(head)
      ensures Agrees(E.EmitFlowMappingKey(old(View()), old(Queue()), first, cfg), ok)
    {
      hide E.EmitNode, E.LeaveFlow, E.FlowGap, WriteIndicator;
      if events[head].MappingEnd? {
        LeaveFlow("}", false);
        return true;
      }
      FlowGap(first);
      var simple := CheckSimpleKey();
      if simple {
        states := states + [E.AtFlowMappingSimpleValue];
        ok := EmitNode(false, true);
      } else {
        Indicator("?", true, false, false);
        states := states + [E.AtFlowMappingValue];
        ok := EmitNode(false, false);
      }
    }

    method EmitFlowMappingValue(simple: bool) returns (ok: bool)
      requires Valid() && Analyzed() && !E.EmitFlowMappingValue(View(), Queue(), simple, cfg).Panic?
      modifies this, out, out.buffer
      ensures Valid() && events == old(events) && head == old(head)
      ensures Agrees(E.EmitFlowMappingValue(old(View()), old(Queue()), simple, cfg), ok)
    {
      hide E.EmitNode, WriteIndicator, WriteIndent;
      if simple {
        Indicator(":", false, false, false);
      } else {
        if out.column > cfg.bestWidth {
          Break();
        }
        Indicator(":", true, false, false);
      }
      states := states + [E.AtFlowMappingKey];
      ok := EmitNode(false, false);
    }

    // ---------- block collections ----------

    method EnterBlock(entered: E.EmitState)
      requires Valid() && E.MayIncrease(View())
      modifies this`indent, this`indents, this`state
      ensures Valid() && View() == E.EnterBlock(old(View()), entered, cfg)
    {
      IncreaseIndent(false);
      state := entered;
    }

    method EmitBlockSequenceItem() returns (ok: bool)
      requires Valid() && Analyzed() && !E.EmitBlockSequenceItem(View(), Queue(), cfg).Panic?
      modifies this, out, out.buffer
      ensures Valid() && events == old(events) && head == old(head)
      ensures Agrees(E.EmitBlockSequenceItem(old(View()), old(Queue()), cfg), ok)
    {
      hide E.EmitNode, WriteIndicator, WriteIndent;
      if events[head].SequenceEnd? {
        PopIndent();
        PopState();
        return true;
      }
      Break();
      Indicator("-", true, false, true);
      states := states + [E.AtBlockSequenceItem];
      ok := EmitNode(false, false);
    }

    method EmitBlockMappingKey() returns (ok: bool)
      requires Valid() && Analyzed() && !E.EmitBlockMappingKey(View(), Queue(), cfg).Panic?
      modifies this, out, out.buffer
      ensures Valid() && events == old(events) && head == old(head)
      ensures Agrees(E.EmitBlockMappingKey(old(View()), old(Queue()), cfg), ok)
    {
      hide E.EmitNode, WriteIndicator, WriteIndent;
      if events[head].MappingEnd? {
        PopIndent();
        PopState();
        return true;
      }
      Break();
      var simple := CheckSimpleKey();
      if simple {
        states := states + [E.AtBlockMappingSimpleValue];
        ok := EmitNode(false, true);
      } else {
        Indicator("?", true, false, true);
        states := states + [E.AtBlockMappingValue];
        ok := EmitNode(false, false);
      }
    }

    method EmitBlockMappingValue(simple: bool) returns (ok: bool)
      requires Valid() && Analyzed() && !E.EmitBlockMappingValue(View(), Queue(), simple, cfg).Panic?
      modifies this, out, out.buffer
      ensures Valid() && events == old(events) && head == old(head)
      ensures Agrees(E.EmitBlockMappingValue(old(View()), old(Queue()), simple, cfg), ok)
    {
      hide E.EmitNode, E.NewLine, E.Write, Styles.Analyze, EncodeAll;
      if simple {
        Indicator(":", false, false, false);
      } else {
        Break();
        Indicator(":", true, false, true);
      }
      states := states + [E.AtBlockMappingKey];
      ok := EmitNode(false, false);
    }

    // ---------- dispatch ----------

    method AnalyzeEvent()
      requires Valid() && head < |events|
      modifies this`scalar
      ensures Analyzed()
    {
      if events[head].Scalar? {
        var value := events[head].value;
        scalar := AnalyzeScalar(EncodeAll(value), cfg, value);
      }
    }

    method StateMachine() returns (ok: bool)
      requires Valid() && Analyzed() && !E.Dispatch(View(), Queue(), cfg).Panic?
      modifies this, out, out.buffer
      ensures Valid() && events == old(events) && head == old(head)
      ensures Agrees(E.Dispatch(old(View()), old(Queue()), cfg), ok)
      ensures ok && events[head].StreamEnd? ==> out.bufferPos == 0
    {
      hide Styles.Analyze, EncodeAll, E.EmitStreamStart, E.EmitDocumentStart, E.EmitDocumentEnd,
        E.EmitFlowSequenceItem, E.EmitFlowMappingKey, E.EmitFlowMappingValue, E.EmitBlockSequenceItem,
        E.EmitBlockMappingKey, E.EmitBlockMappingValue, E.Increase, E.Write, E.EmitScalarEvent, E.EmitNode,
        E.EnterFlow, E.EnterBlock;
      if events[head].StreamEnd? && E.Dispatch(View(), Queue(), cfg).Done? { OnlyDocumentsEnd(View(), Queue(), cfg); }
      match state
      case AtStreamStart => ok := EmitStreamStart();
      case AtFirstDocumentStart => ok := EmitDocumentStart(true);
      case AtDocumentStart => ok := EmitDocumentStart(false);
      case AtDocumentContent =>
        states := states + [E.AtDocumentEnd];
        ok := EmitNode(true, false);
      case AtDocumentEnd => ok := EmitDocumentEnd();
      case AtFlowSequenceFirstItem =>
        EnterFlow("[", E.AtFlowSequenceItem);
        ok := EmitFlowSequenceItem(true);
      case AtFlowSequenceItem => ok := EmitFlowSequenceItem(false);
      case AtFlowMappingFirstKey =>
        EnterFlow("{", E.AtFlowMappingKey);
        ok := EmitFlowMappingKey(true);
      case AtFlowMappingKey => ok := EmitFlowMappingKey(false);
      case AtFlowMappingSimpleValue => ok := EmitFlowMappingValue(true);
      case AtFlowMappingValue => ok := EmitFlowMappingValue(false);
      case AtBlockSequenceFirstItem =>
        EnterBlock(E.AtBlockSequenceItem);
        ok := EmitBlockSequenceItem();
      case AtBlockSequenceItem => ok := EmitBlockSequenceItem();
      case AtBlockMappingFirstKey =>
        EnterBlock(E.AtBlockMappingKey);
        ok := EmitBlockMappingKey();
      case AtBlockMappingKey => ok := EmitBlockMappingKey();
      case AtBlockMappingSimpleValue => ok := EmitBlockMappingValue(true);
      case AtBlockMappingValue => ok := EmitBlockMappingValue(false);
      case AtEnd => ok := false;
    }

    method NeedMoreEvents() returns (more: bool)
      requires head <= |events|
      ensures more == E.NeedMoreEvents(Queue())
    {
      ghost var q := Queue();
      if head == |events| {
        return true;
      }
      assert events[head] == q[0];
      var accumulate := E.Accumulate(events[head]);
      if accumulate == 0 || |events| - head > accumulate {
        return false;
      }
      var level, i := 0, head;
      while i < |events|
        invariant head <= i <= |events|
        invariant E.Closes(q, i - head, level) == E.Closes(q, 0, 0)
      {
        assert events[i] == q[i - head];
        if E.Starts(events[i]) {
          level := level + 1;
        } else if E.Ends(events[i]) {
          level := level - 1;
        }
        if level == 0 {
          return false;
        }
        i := i + 1;
      }
      more := true;
    }

    /** Hands an event to the emitter, which dispatches those that are ready. */
    method Emit(event: E.EmitEvent) returns (ok: bool)
      requires Valid()
      requires var r := E.Emit(Queued(), event, cfg); r.Err? ==> !r.error.Panic?
      modifies this, out, out.buffer
      ensures Valid()
      ensures var r := E.Emit(old(Queued()), event, cfg); if ok then r == Ok(Queued()) else r.Err?
      ensures ok && event.StreamEnd? && Queue() == [] ==> out.bufferPos == 0
    {
      hide E.Dispatch, E.NeedMoreEvents, Styles.Analyze;
      ghost var goal := E.Emit(Queued(), event, cfg);
      events := events + [event];
      assert Queue() == old(Queue()) + [event];
      assert View() == old(View());
      var more := NeedMoreEvents();
      while !more
        invariant Valid() && E.Drain(View(), Queue(), cfg) == goal && more == E.NeedMoreEvents(Queue())
        invariant Queue() != [] ==> events[|events| - 1] == event
        invariant Queue() == [] && event.StreamEnd? ==> out.bufferPos == 0
        decreases |events| - head
      {
        SomeEvents(Queue());
        ghost var before, q := View(), Queue();
        AnalyzeEvent();
        assert View() == before && Queue() == q;
        ok := StateMachine();
        if !ok {
          return;
        }
        head := head + 1;
        assert Queue() == q[1..];
        more := NeedMoreEvents();
      }
      ok := true;
    }
  }

  lemma SomeEvents(q: seq<E.EmitEvent>)
    requires !E.NeedMoreEvents(q)
    ensures q != []
  {
  }

  /** The end of the stream is accepted only between documents. */
  lemma OnlyDocumentsEnd(m: E.Machine, q: seq<E.EmitEvent>, cfg: Config)
    requires ValidConfig(cfg) && q != [] && q[0].StreamEnd? && E.Dispatch(m, q, cfg).Done?
    ensures m.state.AtFirstDocumentStart? || m.state.AtDocumentStart?
  {
  }
}
