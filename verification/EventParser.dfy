/** The parser as it runs: its state functions change the object's state and stacks in place. */
module EventParser {
  import opened Options
  import opened Resolve
  import opened Tokens
  import opened Parser
  import opened ParserSafety

  /** What a state function must have done, when the machine's step has this outcome. */
  predicate Agrees(o: Outcome, r: Result<Event, ParseError>, m: Machine) {
    match o
    case Produced(event, next) => r == Ok(event) && m == next
    case Failed(error) => r == Err(error)
    case Panic => false
  }

  class EventParser {
    var state: ParseState
    var states: seq<ParseState>
    var marks: nat
    var directives: seq<TagDirective>
    var tokens: seq<Token>      // those still to come from the scanner

    constructor (tokens: seq<Token>)
      ensures View() == StartMachine(tokens)
    {
      this.tokens := tokens;
      state, states, marks, directives := AtStreamStart, [], 0, [];
    }

    function View(): Machine
      reads this
    {
      Machine(state, states, marks, directives, tokens)
    }

    // ---------- tokens ----------

    method SkipToken()
      requires tokens != []
      modifies this`tokens
      ensures View() == Drop(old(View()), 1)
    {
      tokens := tokens[1..];
    }

    method PopState()
      requires states != []
      modifies this`state, this`states
      ensures state == old(states)[|old(states)| - 1] && states == old(states)[..|old(states)| - 1]
    {
      state := states[|states| - 1];
      states := states[..|states| - 1];
    }

    // ---------- documents ----------

    method DoStreamStart() returns (r: Result<Event, ParseError>)
      modifies this
      ensures Agrees(ParseStreamStart(old(View())), r, View())
    {
      if tokens == [] {
        return Err(NoToken);
      }
      if !tokens[0].StreamStartToken? {
        return Err(ExpectedStreamStart);
      }
      state := AtImplicitDocumentStart;
      SkipToken();
      r := Ok(StreamStart);
    }

    method DoDirectives() returns (r: Option<ParseError>)
      modifies this`directives, this`tokens
      ensures var o := ProcessDirectives(old(View()), false);
        match o { case Ok(m) => r == None && View() == m case Err(e) => r == Some(e) }
    {
      var version := false;
      while tokens != [] && (tokens[0].VersionDirectiveToken? || tokens[0].TagDirectiveToken?)
        invariant ProcessDirectives(View(), version) == ProcessDirectives(old(View()), false)
        decreases |tokens|
      {
        if tokens[0].VersionDirectiveToken? {
          if version {
            return Some(DuplicateVersion);
          }
          if tokens[0].major != 1 || tokens[0].minor != 1 {
            return Some(BadVersion);
          }
          version := true;
        } else {
          if FindDirective(directives, tokens[0].handle).Some? {
            return Some(DuplicateTag);
          }
          directives := directives + [TagDirective(tokens[0].handle, tokens[0].prefix)];
        }
        SkipToken();
      }
      if tokens == [] {
        return Some(NoToken);
      }
      directives := WithDefaults(directives);
      r := None;
    }

    method DoDocumentStart(implicit: bool) returns (r: Result<Event, ParseError>)
      modifies this
      ensures Agrees(ParseDocumentStart(old(View()), implicit), r, View())
    {
      if !implicit {
        while tokens != [] && tokens[0].DocumentEndToken?
          invariant SkipDocumentEnds(tokens) == SkipDocumentEnds(old(tokens))
          invariant View() == old(View()).(tokens := tokens)
          decreases |tokens|
        {
          SkipToken();
        }
      }
      if tokens == [] {
        return Err(NoToken);
      }
      if implicit && !EndsContent(tokens[0]) {
        var e := DoDirectives();
        if e.Some? {
          return Err(e.value);
        }
        states := states + [AtDocumentEnd];
        state := AtBlockNode;
        return Ok(DocumentStart);
      }
      if !tokens[0].StreamEndToken? {
        var e := DoDirectives();
        if e.Some? {
          return Err(e.value);
        }
        if tokens == [] {
          return Err(NoToken);
        }
        if !tokens[0].DocumentStartToken? {
          return Err(ExpectedDocumentStart);
        }
        states := states + [AtDocumentEnd];
        state := AtDocumentContent;
        SkipToken();
        return Ok(DocumentStart);
      }
      state := AtEnd;
      SkipToken();
      r := Ok(StreamEnd);
    }

    method DoDocumentContent() returns (r: Result<Event, ParseError>)
      requires !ParseDocumentContent(View()).Panic?
      modifies this
      ensures Agrees(ParseDocumentContent(old(View())), r, View())
    {
      if tokens == [] {
        return Err(NoToken);
      }
      if EndsContent(tokens[0]) || tokens[0].DocumentEndToken? {
        PopState();
        return Ok(EmptyScalar);
      }
      r := DoNode(true, false);
    }

    method DoDocumentEnd() returns (r: Result<Event, ParseError>)
      modifies this
      ensures Agrees(ParseDocumentEnd(old(View())), r, View())
    {
      if tokens == [] {
        return Err(NoToken);
      }
      if tokens[0].DocumentEndToken? {
        SkipToken();
      }
      directives := [];
      state := AtDocumentStart;
      r := Ok(DocumentEnd);
    }

    // ---------- nodes ----------

    method DoProperties() returns (r: Result<(string, string), ParseError>)
      requires tokens != []
      modifies this`tokens
      ensures match ReadProperties(old(View())) {
        case Err(e) => r == Err(e)
        case Ok(p) => r == Ok((p.anchor, p.tag)) && View() == p.rest && tokens != []
      }
    {
      var anchor := "";
      var tag: Option<Token> := None;
      if tokens[0].AnchorToken? {
        anchor := tokens[0].name;
        SkipToken();
        if tokens == [] {
          return Err(NoToken);
        }
        if tokens[0].TagToken? {
          tag := Some(tokens[0]);
          SkipToken();
        }
      } else if tokens[0].TagToken? {
        tag := Some(tokens[0]);
        SkipToken();
        if tokens == [] {
          return Err(NoToken);
        }
        if tokens[0].AnchorToken? {
          anchor := tokens[0].name;
          SkipToken();
        }
      }
      if tokens == [] {
        return Err(NoToken);
      }
      if tag.None? {
        return Ok((anchor, ""));
      }
      var resolved := ResolveTag(View(), tag.value.handle, tag.value.suffix);
      if resolved.Err? {
        return Err(resolved.error);
      }
      r := Ok((anchor, resolved.value));
    }

    method DoNode(block: bool, indentless: bool) returns (r: Result<Event, ParseError>)
      requires !ParseNode(View(), block, indentless).Panic?
      modifies this
      ensures Agrees(ParseNode(old(View()), block, indentless), r, View())
    {
      if tokens == [] {
        return Err(NoToken);
      }
      if tokens[0].AliasToken? {
        var name := tokens[0].name;
        PopState();
        SkipToken();
        return Ok(Alias(name));
      }
      var p := DoProperties();
      if p.Err? {
        return Err(p.error);
      }
      r := DoContent(p.value.0, p.value.1, block, indentless);
    }

    method DoContent(anchor: string, tag: string, block: bool, indentless: bool) returns (r: Result<Event, ParseError>)
      requires tokens != [] && !ParseContent(View(), anchor, tag, block, indentless).Panic?
      modifies this
      ensures Agrees(ParseContent(old(View()), anchor, tag, block, indentless), r, View())
    {
      var t := tokens[0];
      if indentless && t.BlockEntryToken? {
        state := AtIndentlessSequenceEntry;
        return Ok(SequenceStart(anchor, tag));
      }
      if t.ScalarToken? {
        var plainImplicit := (|tag| == 0 && t.style == Plain) || tag == "!";
        PopState();
        SkipToken();
        return Ok(Scalar(anchor, tag, t.value, plainImplicit));
      }
      if t.FlowSequenceStartToken? {
        state := AtFlowSequenceFirstEntry;
        return Ok(SequenceStart(anchor, tag));
      }
      if t.FlowMappingStartToken? {
        state := AtFlowMappingFirstKey;
        return Ok(MappingStart(anchor, tag));
      }
      if block && t.BlockSequenceStartToken? {
        state := AtBlockSequenceFirstEntry;
        return Ok(SequenceStart(anchor, tag));
      }
      if block && t.BlockMappingStartToken? {
        state := AtBlockMappingFirstKey;
        return Ok(MappingStart(anchor, tag));
      }
      if |anchor| > 0 || |tag| > 0 {
        PopState();
        return Ok(Scalar(anchor, tag, "", |tag| == 0));
      }
      r := Err(ExpectedNode);
    }

    method DoNodeOrEmpty(there: Token -> bool, block: bool, indentless: bool, next: ParseState)
      returns (r: Result<Event, ParseError>)
      requires !NodeOrEmpty(View(), there, block, indentless, next).Panic?
      modifies this
      ensures Agrees(NodeOrEmpty(old(View()), there, block, indentless, next), r, View())
    {
      if tokens == [] {
        return Err(NoToken);
      }
      if there(tokens[0]) {
        states := states + [next];
        r := DoNode(block, indentless);
      } else {
        state := next;
        r := Ok(EmptyScalar);
      }
    }

    /** The end of a collection: its mark goes, and its state. */
    method EndCollection(event: Event) returns (r: Result<Event, ParseError>)
      requires tokens != [] && !ReturnMarked(Drop(View(), 1), event).Panic?
      modifies this
      ensures Agrees(ReturnMarked(Drop(old(View()), 1), event), r, View())
    {
      PopState();
      marks := marks - 1;
      SkipToken();
      r := Ok(event);
    }

    /** The start token of a collection is passed, and its position remembered. */
    method Enter(entered: ParseState)
      requires tokens != []
      modifies this
      ensures View() == PassStart(old(View()), entered)
    {
      marks := marks + 1;
      state := entered;
      SkipToken();
    }

    // ---------- block collections ----------

    method DoBlockSequenceEntry() returns (r: Result<Event, ParseError>)
      requires !ParseBlockSequenceEntry(View()).Panic?
      modifies this
      ensures Agrees(ParseBlockSequenceEntry(old(View())), r, View())
    {
      if tokens == [] {
        return Err(NoToken);
      }
      if tokens[0].BlockEntryToken? {
        SkipToken();
        r := DoNodeOrEmpty((t: Token) => !t.BlockEntryToken? && !t.BlockEndToken?, true, false, AtBlockSequenceEntry);
        return;
      }
      if tokens[0].BlockEndToken? {
        r := EndCollection(SequenceEnd);
        return;
      }
      marks := marks - 1;
      r := Err(ExpectedDash);
    }

    method DoIndentlessSequenceEntry() returns (r: Result<Event, ParseError>)
      requires !ParseIndentlessSequenceEntry(View()).Panic?
      modifies this
      ensures Agrees(ParseIndentlessSequenceEntry(old(View())), r, View())
    {
      if tokens == [] {
        return Err(NoToken);
      }
      if tokens[0].BlockEntryToken? {
        SkipToken();
        r := DoNodeOrEmpty((t: Token) => StartsMappingNode(t) && !t.BlockEntryToken?,
                           true, false, AtIndentlessSequenceEntry);
        return;
      }
      PopState();
      r := Ok(SequenceEnd);
    }

    method DoBlockMappingKey() returns (r: Result<Event, ParseError>)
      requires !ParseBlockMappingKey(View()).Panic?
      modifies this
      ensures Agrees(ParseBlockMappingKey(old(View())), r, View())
    {
      if tokens == [] {
        return Err(NoToken);
      }
      if tokens[0].KeyToken? {
        SkipToken();
        r := DoNodeOrEmpty(StartsMappingNode, true, true, AtBlockMappingValue);
        return;
      }
      if tokens[0].BlockEndToken? {
        r := EndCollection(MappingEnd);
        return;
      }
      marks := marks - 1;
      r := Err(ExpectedKey);
    }

    method DoBlockMappingValue() returns (r: Result<Event, ParseError>)
      requires !ParseBlockMappingValue(View()).Panic?
      modifies this
      ensures Agrees(ParseBlockMappingValue(old(View())), r, View())
    {
      if tokens == [] {
        return Err(NoToken);
      }
      if tokens[0].ValueToken? {
        SkipToken();
        r := DoNodeOrEmpty(StartsMappingNode, true, true, AtBlockMappingKey);
        return;
      }
      state := AtBlockMappingKey;
      r := Ok(EmptyScalar);
    }

    // ---------- flow collections ----------

    method DoFlowSequenceEntry(first: bool) returns (r: Result<Event, ParseError>)
      requires !ParseFlowSequenceEntry(View(), first).Panic?
      modifies this
      ensures Agrees(ParseFlowSequenceEntry(old(View()), first), r, View())
    {
      if tokens == [] {
        return Err(NoToken);
      }
      if !tokens[0].FlowSequenceEndToken? {
        if !first {
          if !tokens[0].FlowEntryToken? {
            marks := marks - 1;
            return Err(ExpectedCommaOrBracket);
          }
          SkipToken();
          if tokens == [] {
            return Err(NoToken);
          }
        }
        if tokens[0].KeyToken? {
          state := AtFlowSequenceEntryMappingKey;
          SkipToken();
          return Ok(MappingStart("", ""));
        }
        if !tokens[0].FlowSequenceEndToken? {
          states := states + [AtFlowSequenceEntry];
          r := DoNode(false, false);
          return;
        }
      }
      r := EndCollection(SequenceEnd);
    }

    method DoFlowSequenceEntryMappingKey() returns (r: Result<Event, ParseError>)
      requires !ParseFlowSequenceEntryMappingKey(View()).Panic?
      modifies this
      ensures Agrees(ParseFlowSequenceEntryMappingKey(old(View())), r, View())
    {
      if tokens == [] {
        return Err(NoToken);
      }
      var t := tokens[0];
      if !t.ValueToken? && !t.FlowEntryToken? && !t.FlowSequenceEndToken? {
        states := states + [AtFlowSequenceEntryMappingValue];
        r := DoNode(false, false);
        return;
      }
      SkipToken();
      state := AtFlowSequenceEntryMappingValue;
      r := Ok(EmptyScalar);
    }

    method DoFlowSequenceEntryMappingValue() returns (r: Result<Event, ParseError>)
      requires !ParseFlowSequenceEntryMappingValue(View()).Panic?
      modifies this
      ensures Agrees(ParseFlowSequenceEntryMappingValue(old(View())), r, View())
    {
      if tokens == [] {
        return Err(NoToken);
      }
      if tokens[0].ValueToken? {
        SkipToken();
        r := DoNodeOrEmpty((t: Token) => !t.FlowEntryToken? && !t.FlowSequenceEndToken?, false, false,
                           AtFlowSequenceEntryMappingEnd);
        return;
      }
      state := AtFlowSequenceEntryMappingEnd;
      r := Ok(EmptyScalar);
    }

    method DoFlowSequenceEntryMappingEnd() returns (r: Result<Event, ParseError>)
      modifies this
      ensures Agrees(ParseFlowSequenceEntryMappingEnd(old(View())), r, View())
    {
      if tokens == [] {
        return Err(NoToken);
      }
      state := AtFlowSequenceEntry;
      r := Ok(MappingEnd);
    }

    method DoFlowMappingKey(first: bool) returns (r: Result<Event, ParseError>)
      requires !ParseFlowMappingKey(View(), first).Panic?
      modifies this
      ensures Agrees(ParseFlowMappingKey(old(View()), first), r, View())
    {
      if tokens == [] {
        return Err(NoToken);
      }
      if !tokens[0].FlowMappingEndToken? {
        if !first {
          if !tokens[0].FlowEntryToken? {
            marks := marks - 1;
            return Err(ExpectedCommaOrBrace);
          }
          SkipToken();
          if tokens == [] {
            return Err(NoToken);
          }
        }
        if tokens[0].KeyToken? {
          SkipToken();
          r := DoNodeOrEmpty((t: Token) => !t.ValueToken? && !t.FlowEntryToken? && !t.FlowMappingEndToken?,
                             false, false, AtFlowMappingValue);
          return;
        }
        if !tokens[0].FlowMappingEndToken? {
          states := states + [AtFlowMappingEmptyValue];
          r := DoNode(false, false);
          return;
        }
      }
      r := EndCollection(MappingEnd);
    }

    method DoFlowMappingValue(empty: bool) returns (r: Result<Event, ParseError>)
      requires !ParseFlowMappingValue(View(), empty).Panic?
      modifies this
      ensures Agrees(ParseFlowMappingValue(old(View()), empty), r, View())
    {
      if tokens == [] {
        return Err(NoToken);
      }
      if !empty && tokens[0].ValueToken? {
        SkipToken();
        r := DoNodeOrEmpty((t: Token) => !t.FlowEntryToken? && !t.FlowMappingEndToken?, false, false, AtFlowMappingKey);
        return;
      }
      state := AtFlowMappingKey;
      r := Ok(EmptyScalar);
    }

    // ---------- the state machine ----------

    /** The next event. A panic is impossible, by what every step keeps. */
    method NextEvent() returns (r: Result<Event, ParseError>)
      requires Good(View()) && state != AtEnd
      modifies this
      ensures Agrees(Step(old(View())), r, View())
      ensures r.Ok? ==> Good(View()) && Accept(Shape(old(View())), r.value) == Some(Shape(View()))
      ensures r.Ok? ==> Measure(View()) < Measure(old(View()))
    {
      hide Good, Accept, Shape, ParseStreamStart, ParseDocumentStart, ParseDocumentContent, ParseDocumentEnd,
        ParseNode, ParseBlockSequenceEntry, ParseIndentlessSequenceEntry, ParseBlockMappingKey,
        ParseBlockMappingValue, ParseFlowSequenceEntry, ParseFlowSequenceEntryMappingKey,
        ParseFlowSequenceEntryMappingValue, ParseFlowSequenceEntryMappingEnd, ParseFlowMappingKey,
        ParseFlowMappingValue;
      StepSound(View());
      match state
      case AtStreamStart => r := DoStreamStart();
      case AtImplicitDocumentStart => r := DoDocumentStart(true);
      case AtDocumentStart => r := DoDocumentStart(false);
      case AtDocumentContent => r := DoDocumentContent();
      case AtDocumentEnd => r := DoDocumentEnd();
      case AtBlockNode => r := DoNode(true, false);
      case AtBlockNodeOrIndentlessSequence => r := DoNode(true, true);
      case AtFlowNode => r := DoNode(false, false);
      case AtBlockSequenceFirstEntry =>
        if tokens == [] { return Err(NoToken); }
        Enter(AtBlockSequenceEntry);
        r := DoBlockSequenceEntry();
      case AtBlockSequenceEntry => r := DoBlockSequenceEntry();
      case AtIndentlessSequenceEntry => r := DoIndentlessSequenceEntry();
      case AtBlockMappingFirstKey =>
        if tokens == [] { return Err(NoToken); }
        Enter(AtBlockMappingKey);
        r := DoBlockMappingKey();
      case AtBlockMappingKey => r := DoBlockMappingKey();
      case AtBlockMappingValue => r := DoBlockMappingValue();
      case AtFlowSequenceFirstEntry =>
        if tokens == [] { return Err(NoToken); }
        Enter(AtFlowSequenceEntry);
        r := DoFlowSequenceEntry(true);
      case AtFlowSequenceEntry => r := DoFlowSequenceEntry(false);
      case AtFlowSequenceEntryMappingKey => r := DoFlowSequenceEntryMappingKey();
      case AtFlowSequenceEntryMappingValue => r := DoFlowSequenceEntryMappingValue();
      case AtFlowSequenceEntryMappingEnd => r := DoFlowSequenceEntryMappingEnd();
      case AtFlowMappingFirstKey =>
        Enter(AtFlowMappingKey);
        r := DoFlowMappingKey(true);
      case AtFlowMappingKey => r := DoFlowMappingKey(false);
      case AtFlowMappingValue => r := DoFlowMappingValue(false);
      case AtFlowMappingEmptyValue => r := DoFlowMappingValue(true);
    }
  }

  /** What one call of the parser leaves of the whole run. */
  lemma ParsedOn(m: Machine, r: Result<Event, ParseError>, next: Machine)
    requires Good(m) && m.state != AtEnd && Agrees(Step(m), r, next)
    ensures r.Ok? ==> Good(next)
    ensures r.Ok? ==> ParseAll(m).events == [r.value] + ParseAll(next).events
    ensures r.Ok? ==> ParseAll(m).finish == ParseAll(next).finish
    ensures r.Err? ==> ParseAll(m) == Run([], Stopped(r.error))
  {
    hide Step, Good, Accept, Shape, Measure;
    StepSound(m);
  }

  lemma ParsedToEnd(m: Machine)
    requires Good(m) && m.state == AtEnd
    ensures ParseAll(m) == Run([], Complete(m))
  {
    hide Good;
  }

  /** All events, until the stream ends or an error stops the parser. */
  method AllEvents(tokens: seq<Token>) returns (events: seq<Event>, error: Option<ParseError>)
    ensures Good(StartMachine(tokens))
    ensures var run := ParseAll(StartMachine(tokens));
      && events == run.events && (error.None? <==> run.finish.Complete?)
      && (error.Some? ==> run.finish == Stopped(error.value))
    ensures |events| <= 3 * |tokens| && Brackets([Opening], events).Some?
    ensures error.None? ==> Brackets([Opening], events) == Some([Finished])
  {
    hide Step, Accept, Brackets, Good, Shape, ParseAll, Measure;
    AnyTokensParseSafely(tokens);
    var parser := new EventParser(tokens);
    ghost var all := ParseAll(parser.View());
    events, error := [], None;
    while parser.state != AtEnd
      invariant fresh(parser) && Good(parser.View())
      invariant all.events == events + ParseAll(parser.View()).events
      invariant all.finish == ParseAll(parser.View()).finish
      decreases Measure(parser.View())
    {
      ghost var m := parser.View();
      var r := parser.NextEvent();
      ParsedOn(m, r, parser.View());
      if r.Err? {
        error := Some(r.error);
        assert all.events == events;
        return;
      }
      assert events + ([r.value] + ParseAll(parser.View()).events)
          == (events + [r.value]) + ParseAll(parser.View()).events;
      events := events + [r.value];
    }
    ParsedToEnd(parser.View());
    assert all.events == events;
  }
}
