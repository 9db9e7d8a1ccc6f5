/** Every derivation of the grammar is parsed to the events of its node. */
module GrammarParse {
  import opened Options
  import opened Resolve
  import opened Tokens
  import opened Parser
  import opened ParserSafety
  import opened ParserRuns
  import opened Composer
  import opened Grammar

  // ---------- properties ----------

  lemma PropsRead(m: Machine, p: Props, body: seq<Token>)
    requires m.tokens == PropTokens(p) + body && body != [] && !body[0].AnchorToken? && !body[0].TagToken?
    requires LegalProps(p, m.directives)
    ensures ReadProperties(m) == Ok(Properties(AnchorOf(p), TagOf(p, m.directives), m.(tokens := body)))
  {
    hide FindDirective;
    var ts := PropTokens(p);
    assert m.tokens[|ts|..] == body;
    assert m.tokens[|ts|] == body[0];
    if ts != [] { assert m.tokens[0] == ts[0]; }
    if |ts| == 2 { assert m.tokens[1] == ts[1]; }
    assert ts == [] ==> m.tokens == body;
  }

  predicate InsideBlock(place: Where) {
    place != InFlow
  }

  function NodeStep(m: Machine, place: Where): Outcome {
    ParseNode(m, place != InFlow, place == InBlockMap)
  }

  /** What is parsed where a node may be left out. */
  function SlotStep(x: Syntax, m: Machine, place: Where, then_: ParseState): Outcome {
    if x.Nothing? then Produced(EmptyScalar, m.(state := then_)) else NodeStep(PushState(m, then_), place)
  }

  lemma ContentIsNext(x: Syntax, m: Machine, body: seq<Token>, place: Where)
    requires !x.Nothing? && !x.AliasOf? && m.tokens == PropTokens(PropsOf(x)) + body
    requires body != [] && !body[0].AnchorToken? && !body[0].TagToken? && !body[0].AliasToken?
    requires LegalProps(PropsOf(x), m.directives)
    ensures NodeStep(m, place)
         == ParseContent(m.(tokens := body), AnchorOf(x.props), TagOf(x.props, m.directives),
                         place != InFlow, place == InBlockMap)
  {
    hide ParseContent, ReadProperties;
    PropsRead(m, x.props, body);
    PropsFirst(x.props);
    assert m.tokens[0] == if PropTokens(x.props) == [] then body[0] else PropTokens(x.props)[0];
  }

  // ---------- nodes ----------

  /** The machine once the properties of a collection are read. */
  function Inside(m: Machine, state: ParseState, body: seq<Token>): Machine {
    m.(state := state, tokens := body)
  }

  lemma OneEvent(e: Event, m: Machine)
    ensures [e][1..] == [] && Parses(m, [], m)
  {
  }

  lemma {:induction false} NodeParsed(x: Syntax, m: Machine, rest: seq<Token>, place: Where)
    requires Legal(x, place, m.directives) && !x.Nothing? && m.states != [] && MayFollow(rest, place)
    requires m.tokens == SynTokens(x) + rest
    ensures Begins(NodeStep(m, place), NodeEvents(SynNode(x, m.directives)), Back(m, rest))
    decreases x, 5
  {
    hide Step, ParseContent, NodeStep, Begins, SynNodes, PartPairs, PartNodes, ItemEvents, PairEvents, LegalProps,
      LegalItems, LegalParts, TagOf, Parses;
    if x.AliasOf? {
      AliasParsed(x, m, rest, place);
    } else {
      var body := ContentTokens(x) + rest;
      assert m.tokens == PropTokens(x.props) + body;
      if x.Bare? { assert body == rest; } else { FirstOfContent(x); }
      ContentIsNext(x, m, body, place);
      ContentParsed(x, m, body, rest, place);
    }
  }

  lemma AliasParsed(x: Syntax, m: Machine, rest: seq<Token>, place: Where)
    requires x.AliasOf? && m.states != [] && m.tokens == SynTokens(x) + rest
    ensures Begins(NodeStep(m, place), NodeEvents(SynNode(x, m.directives)), Back(m, rest))
  {
    hide Step;
    assert m.tokens == [AliasToken(x.name)] + rest;
    assert m.tokens[1..] == rest;
    OneEvent(Alias(x.name), Back(m, rest));
  }

  function ContentStep(x: Syntax, m: Machine, body: seq<Token>, place: Where): Outcome
    requires body != [] && !x.Nothing? && !x.AliasOf?
  {
    ParseContent(m.(tokens := body), AnchorOf(x.props), TagOf(x.props, m.directives),
                 place != InFlow, place == InBlockMap)
  }

  lemma {:induction false} ContentParsed(x: Syntax, m: Machine, body: seq<Token>, rest: seq<Token>, place: Where)
    requires Legal(x, place, m.directives) && !x.Nothing? && !x.AliasOf? && m.states != [] && MayFollow(rest, place)
    requires body == ContentTokens(x) + rest
    ensures body != []
    ensures Begins(ContentStep(x, m, body, place), NodeEvents(SynNode(x, m.directives)), Back(m, rest))
    decreases x, 4
  {
    hide Step, ParseContent, SynNodes, PartPairs, PartNodes, ItemEvents, PairEvents, LegalProps, LegalItems,
      LegalParts, TagOf, Parses, DashTokens, PairTokens, FlowTokens, ContentStep, Begins;
    match x
    case Bare(_) => LeafParsed(x, m, body, rest, place);
    case Text(_, _, _) => LeafParsed(x, m, body, rest, place);
    case BlockList(props, items) =>
      EnterParsed(x, m, body, rest, place, AtBlockSequenceFirstEntry);
      BlockListParsed(items, Inside(m, AtBlockSequenceFirstEntry, body), rest);
      Wrapped(x, m, body, rest, place, AtBlockSequenceFirstEntry, ItemEvents(SynNodes(items, m.directives)),
              SequenceEnd);
    case PlainList(props, items) =>
      EnterParsed(x, m, body, rest, place, AtIndentlessSequenceEntry);
      PlainItemsParsed(items, Inside(m, AtIndentlessSequenceEntry, body), rest);
      Wrapped(x, m, body, rest, place, AtIndentlessSequenceEntry, ItemEvents(SynNodes(items, m.directives)),
              SequenceEnd);
    case BlockMap(props, parts) =>
      EnterParsed(x, m, body, rest, place, AtBlockMappingFirstKey);
      BlockMapParsed(parts, Inside(m, AtBlockMappingFirstKey, body), rest);
      Wrapped(x, m, body, rest, place, AtBlockMappingFirstKey, PairEvents(PartPairs(parts, m.directives)), MappingEnd);
    case FlowList(props, parts, comma) =>
      EnterParsed(x, m, body, rest, place, AtFlowSequenceFirstEntry);
      FlowListParsed(parts, comma, Inside(m, AtFlowSequenceFirstEntry, body), rest);
      Wrapped(x, m, body, rest, place, AtFlowSequenceFirstEntry, ItemEvents(PartNodes(parts, m.directives)),
              SequenceEnd);
    case FlowMap(props, parts, comma) =>
      EnterParsed(x, m, body, rest, place, AtFlowMappingFirstKey);
      FlowMapParsed(parts, comma, Inside(m, AtFlowMappingFirstKey, body), rest);
      Wrapped(x, m, body, rest, place, AtFlowMappingFirstKey, PairEvents(PartPairs(parts, m.directives)), MappingEnd);
  }

  lemma LeafParsed(x: Syntax, m: Machine, body: seq<Token>, rest: seq<Token>, place: Where)
    requires Legal(x, place, m.directives) && (x.Bare? || x.Text?) && m.states != [] && MayFollow(rest, place)
    requires body == ContentTokens(x) + rest && body != []
    ensures Begins(ContentStep(x, m, body, place), NodeEvents(SynNode(x, m.directives)), Back(m, rest))
  {
    hide Step, TagText;
    if x.Text? {
      assert body == [ScalarToken(x.value, x.style)] + rest;
      assert body[1..] == rest;
    } else {
      assert body == rest;
    }
    var e := NodeEvents(SynNode(x, m.directives))[0];
    OneEvent(e, Back(m, rest));
  }

  /** The state that reads a collection's first entry, and the event that begins the collection. */
  function StartOf(x: Syntax, ds: seq<TagDirective>): Event
    requires !x.Nothing? && !x.AliasOf?
  {
    if x.BlockMap? || x.FlowMap? then MappingStart(AnchorOf(x.props), TagOf(x.props, ds))
    else SequenceStart(AnchorOf(x.props), TagOf(x.props, ds))
  }

  lemma EnterParsed(x: Syntax, m: Machine, body: seq<Token>, rest: seq<Token>, place: Where, state: ParseState)
    requires Legal(x, place, m.directives) && body == ContentTokens(x) + rest
    requires match x
             case BlockList(_, _) => state == AtBlockSequenceFirstEntry
             case PlainList(_, _) => state == AtIndentlessSequenceEntry
             case BlockMap(_, _) => state == AtBlockMappingFirstKey
             case FlowList(_, _, _) => state == AtFlowSequenceFirstEntry
             case FlowMap(_, _, _) => state == AtFlowMappingFirstKey
             case _ => false
    ensures body != []
    ensures ContentStep(x, m, body, place) == Produced(StartOf(x, m.directives), Inside(m, state, body))
  {
    hide TagOf, LegalItems, LegalParts, LegalProps, DashTokens, PairTokens, FlowTokens, KeysThere;
    FirstOfContent(x);
    assert body[0] == ContentTokens(x)[0];
    if x.PlainList? { assert DashTokens(x.items)[0] == BlockEntryToken by { FirstDash(x.items); } }
  }

  lemma FirstDash(items: seq<Syntax>)
    requires items != []
    ensures DashTokens(items) != [] && DashTokens(items)[0] == BlockEntryToken
  {
  }

  /** A collection's events: its start, those of its entries, its end. */
  lemma Wrapped(x: Syntax, m: Machine, body: seq<Token>, rest: seq<Token>, place: Where, state: ParseState,
                inner: seq<Event>, end: Event)
    requires body != [] && m.states != [] && !x.Nothing? && !x.AliasOf?
    requires ContentStep(x, m, body, place) == Produced(StartOf(x, m.directives), Inside(m, state, body))
    requires Parses(Inside(m, state, body), inner + [end], Back(m, rest))
    requires NodeEvents(SynNode(x, m.directives)) == [StartOf(x, m.directives)] + inner + [end]
    ensures Begins(ContentStep(x, m, body, place), NodeEvents(SynNode(x, m.directives)), Back(m, rest))
  {
    hide ContentStep, NodeEvents, SynNode, Parses;
    var es := [StartOf(x, m.directives)] + inner + [end];
    assert es[1..] == inner + [end];
  }

  /** A place where a node may be: the node, or an empty scalar. */
  lemma {:induction false} SlotParsed(x: Syntax, m: Machine, rest: seq<Token>, place: Where, then_: ParseState)
    requires Legal(x, place, m.directives) && MayFollow(rest, place)
    requires m.tokens == SynTokens(x) + rest
    ensures m.tokens != []
    ensures if x.Nothing? then m.tokens == rest
            else Starts(m.tokens[0]) || (place == InBlockMap && m.tokens[0].BlockEntryToken?)
    ensures Begins(SlotStep(x, m, place, then_), NodeEvents(SynNode(x, m.directives)),
                   m.(state := then_, tokens := rest))
    decreases x, 6
  {
    hide Step, NodeStep, Legal;
    if x.Nothing? {
      assert m.tokens == rest;
      OneEvent(EmptyScalar, m.(state := then_));
    } else {
      FirstOf(x, place, m.directives);
      NodeParsed(x, PushState(m, then_), rest, place);
      BackPushed(m, then_, m.tokens, rest);
    }
  }

  // ---------- block collections ----------

  lemma StartPassed(m: Machine, start: Token, body: seq<Token>, entered: ParseState)
    requires m.tokens == [start] + body
    ensures PassStart(m, entered) == m.(tokens := body, marks := m.marks + 1, state := entered)
  {
  }

  /** The end of a collection whose start was marked. */
  lemma EndParsed(m: Machine, rest: seq<Token>)
    requires m.states != [] && m.marks > 0 && m.tokens == [BlockEndToken] + rest
    ensures m.state == AtBlockSequenceEntry ==> Parses(m, [SequenceEnd], Back(m.(marks := m.marks - 1), rest))
    ensures m.state == AtBlockMappingKey ==> Parses(m, [MappingEnd], Back(m.(marks := m.marks - 1), rest))
  {
    hide ParseNode;
    assert m.tokens[1..] == rest;
    OneEvent(SequenceEnd, Back(m.(marks := m.marks - 1), rest));
    OneEvent(MappingEnd, Back(m.(marks := m.marks - 1), rest));
  }

  lemma {:induction false} BlockListParsed(items: seq<Syntax>, m: Machine, rest: seq<Token>)
    requires LegalItems(items, m.directives) && m.states != [] && m.state == AtBlockSequenceFirstEntry
    requires m.tokens == [BlockSequenceStartToken] + DashTokens(items) + [BlockEndToken] + rest
    ensures Parses(m, ItemEvents(SynNodes(items, m.directives)) + [SequenceEnd], Back(m, rest))
    decreases items, 1
  {
    hide Step, DashTokens, SynNodes, ItemEvents, Parses;
    var body := DashTokens(items) + ([BlockEndToken] + rest);
    assert m.tokens == [BlockSequenceStartToken] + body;
    StartPassed(m, BlockSequenceStartToken, body, AtBlockSequenceEntry);
    var m1 := PassStart(m, AtBlockSequenceEntry);
    BlockItemsParsed(items, m1, rest);
    EnterBlock(m, ItemEvents(SynNodes(items, m.directives)) + [SequenceEnd], Back(m, rest));
  }

  /** The state of the first entry passes the start token and does what the next state does. */
  lemma EnterBlock(m: Machine, events: seq<Event>, m1: Machine)
    requires m.tokens != [] && events != []
    requires m.state == AtBlockSequenceFirstEntry || m.state == AtBlockMappingFirstKey
    requires Parses(PassStart(m, Entered(m.state)), events, m1)
    ensures Parses(m, events, m1)
  {
    hide ParseBlockSequenceEntry, ParseBlockMappingKey;
  }

  lemma DashSplit(items: seq<Syntax>, tail: seq<Token>)
    requires items != []
    ensures DashTokens(items) + tail == [BlockEntryToken] + (SynTokens(items[0]) + (DashTokens(items[1..]) + tail))
  {
    hide SynTokens;
  }

  lemma DashFollows(items: seq<Syntax>, tail: seq<Token>)
    requires tail != [] && Closes(tail[0])
    ensures MayFollow(DashTokens(items) + tail, InBlock)
    ensures var rest := DashTokens(items) + tail; rest[0].BlockEntryToken? || rest[0] == tail[0]
  {
    hide SynTokens;
    if items == [] { assert DashTokens(items) + tail == tail; } else { DashSplit(items, tail); }
  }

  lemma DashStep(x: Syntax, m: Machine, rest: seq<Token>)
    requires m.state == AtBlockSequenceEntry || m.state == AtIndentlessSequenceEntry
    requires m.tokens == [BlockEntryToken] + (SynTokens(x) + rest) && Legal(x, InBlock, m.directives)
    requires rest != [] && Closes(rest[0])
    requires m.state == AtBlockSequenceEntry ==> rest[0].BlockEntryToken? || rest[0].BlockEndToken?
    requires m.state == AtIndentlessSequenceEntry ==>
      rest[0].BlockEntryToken? || rest[0].KeyToken? || rest[0].ValueToken? || rest[0].BlockEndToken?
    ensures Begins(Step(m), NodeEvents(SynNode(x, m.directives)), m.(tokens := rest))
    decreases x, 7
  {
    hide Parses, NodeEvents, SynNode, Begins, ParseNode, Legal, SynTokens;
    var m1 := Drop(m, 1);
    assert m1.tokens == SynTokens(x) + rest;
    SlotParsed(x, m1, rest, InBlock, m.state);
    assert Step(m) == SlotStep(x, m1, InBlock, m.state);
  }

  lemma {:induction false} BlockItemsParsed(items: seq<Syntax>, m: Machine, rest: seq<Token>)
    requires LegalItems(items, m.directives) && m.state == AtBlockSequenceEntry && m.states != [] && m.marks > 0
    requires m.tokens == DashTokens(items) + ([BlockEndToken] + rest)
    ensures Parses(m, ItemEvents(SynNodes(items, m.directives)) + [SequenceEnd], Back(m.(marks := m.marks - 1), rest))
    decreases items, 0
  {
    hide Step, Parses, Begins, NodeEvents, SynNode, SynTokens, Legal;
    var tail := [BlockEndToken] + rest;
    var all := ItemEvents(SynNodes(items, m.directives)) + [SequenceEnd];
    if items == [] {
      assert m.tokens == tail && all == [SequenceEnd];
      EndParsed(m, rest);
    } else {
      DashSplit(items, tail);
      DashFollows(items[1..], tail);
      var more := DashTokens(items[1..]) + tail;
      DashStep(items[0], m, more);
      BlockItemsParsed(items[1..], m.(tokens := more), rest);
      ItemsSplit(items, m.directives, SequenceEnd);
      StepBegins(m, NodeEvents(SynNode(items[0], m.directives)), m.(tokens := more),
                 ItemEvents(SynNodes(items[1..], m.directives)) + [SequenceEnd], Back(m.(marks := m.marks - 1), rest));
    }
  }

  lemma ItemsSplit(items: seq<Syntax>, ds: seq<TagDirective>, end: Event)
    requires items != []
    ensures ItemEvents(SynNodes(items, ds)) + [end]
         == NodeEvents(SynNode(items[0], ds)) + (ItemEvents(SynNodes(items[1..], ds)) + [end])
  {
    hide SynNode, NodeEvents;
    assert SynNodes(items, ds)[0] == SynNode(items[0], ds) && SynNodes(items, ds)[1..] == SynNodes(items[1..], ds);
  }

  lemma {:induction false} PlainItemsParsed(items: seq<Syntax>, m: Machine, rest: seq<Token>)
    requires LegalItems(items, m.directives) && m.state == AtIndentlessSequenceEntry && m.states != []
    requires m.tokens == DashTokens(items) + rest
    requires rest != [] && (rest[0].KeyToken? || rest[0].ValueToken? || rest[0].BlockEndToken?)
    ensures Parses(m, ItemEvents(SynNodes(items, m.directives)) + [SequenceEnd], Back(m, rest))
    decreases items, 0
  {
    hide Step, Parses, Begins, NodeEvents, SynNode, SynTokens, Legal;
    var all := ItemEvents(SynNodes(items, m.directives)) + [SequenceEnd];
    if items == [] {
      assert m.tokens == rest && all == [SequenceEnd];
      PlainEnd(m);
    } else {
      DashSplit(items, rest);
      DashFollows(items[1..], rest);
      var more := DashTokens(items[1..]) + rest;
      DashStep(items[0], m, more);
      PlainItemsParsed(items[1..], m.(tokens := more), rest);
      ItemsSplit(items, m.directives, SequenceEnd);
      StepBegins(m, NodeEvents(SynNode(items[0], m.directives)), m.(tokens := more),
                 ItemEvents(SynNodes(items[1..], m.directives)) + [SequenceEnd], Back(m, rest));
    }
  }

  lemma PlainEnd(m: Machine)
    requires m.state == AtIndentlessSequenceEntry && m.states != [] && m.tokens != [] && !m.tokens[0].BlockEntryToken?
    ensures Parses(m, [SequenceEnd], Back(m, m.tokens))
  {
    OneEvent(SequenceEnd, Back(m, m.tokens));
  }

  // ---------- keys and values ----------

  function ValueTokens(p: Part): seq<Token> {
    if p.Both? then [ValueToken] + SynTokens(p.value) else []
  }

  /** Where the value of a key is read, and where the parser is then. */
  function ValueWhere(state: ParseState): Where {
    if state == AtBlockMappingValue then InBlockMap else InFlow
  }

  function ValueThen(state: ParseState): ParseState {
    match state
    case AtBlockMappingValue => AtBlockMappingKey
    case AtFlowMappingValue => AtFlowMappingKey
    case _ => AtFlowSequenceEntryMappingEnd
  }

  /** Stands behind a part of a collection whose values are read in this state. */
  predicate EndsPart(t: Token, state: ParseState) {
    match state
    case AtBlockMappingValue => t.KeyToken? || t.BlockEndToken?
    case AtFlowMappingValue => t.FlowEntryToken? || t.FlowMappingEndToken?
    case _ => t.FlowEntryToken? || t.FlowSequenceEndToken?
  }

  lemma ValueParsed(p: Part, m: Machine, rest: seq<Token>)
    requires m.state in {AtBlockMappingValue, AtFlowMappingValue, AtFlowSequenceEntryMappingValue}
    requires !p.Single? && LegalPart(p, ValueWhere(m.state), m.directives)
    requires m.tokens == ValueTokens(p) + rest && rest != [] && EndsPart(rest[0], m.state)
    ensures Begins(Step(m), NodeEvents(PartPair(p, m.directives).value),
                   m.(state := ValueThen(m.state), tokens := rest))
    decreases p, 7
  {
    hide Parses, NodeEvents, SynNode, Begins, ParseNode, Legal, SynTokens;
    if p.Both? {
      var m1 := Drop(m, 1);
      assert m.tokens == [ValueToken] + (SynTokens(p.value) + rest);
      assert m1.tokens == SynTokens(p.value) + rest;
      SlotParsed(p.value, m1, rest, ValueWhere(m.state), ValueThen(m.state));
      assert Step(m) == SlotStep(p.value, m1, ValueWhere(m.state), ValueThen(m.state));
    } else {
      assert m.tokens == rest;
      NullBegins(m.(state := ValueThen(m.state)));
    }
  }

  lemma NullBegins(m: Machine)
    ensures Begins(Produced(EmptyScalar, m), NodeEvents(NULL_NODE), m)
  {
    OneEvent(EmptyScalar, m);
  }

  /** The outcome where KEY is the next token. */
  function KeyStep(m: Machine): Outcome {
    if m.state == AtBlockMappingKey then Step(m) else FlowMappingItem(m)
  }

  lemma KeyParsed(p: Part, m: Machine, rest: seq<Token>, state: ParseState)
    requires (m.state == AtBlockMappingKey && state == AtBlockMappingValue)
          || (m.state == AtFlowMappingKey && state == AtFlowMappingValue)
    requires !p.Single? && LegalPart(p, ValueWhere(state), m.directives)
    requires m.tokens == [KeyToken] + (SynTokens(p.key) + rest)
    requires rest != [] && (rest[0].ValueToken? || EndsPart(rest[0], state))
    ensures Begins(KeyStep(m), NodeEvents(SynNode(p.key, m.directives)), m.(state := state, tokens := rest))
    decreases p, 7
  {
    hide Parses, NodeEvents, SynNode, Begins, NodeStep, SlotStep, KeyStep, Legal, SynTokens;
    var m1 := m.(tokens := SynTokens(p.key) + rest);
    SlotParsed(p.key, m1, rest, ValueWhere(state), state);
    KeySlot(p.key, m, m1.tokens, rest, state);
  }

  lemma KeySlot(key: Syntax, m: Machine, tokens: seq<Token>, rest: seq<Token>, state: ParseState)
    requires (m.state == AtBlockMappingKey && state == AtBlockMappingValue)
          || (m.state == AtFlowMappingKey && state == AtFlowMappingValue)
    requires m.tokens == [KeyToken] + tokens && tokens != []
    requires if key.Nothing? then tokens == rest && rest != [] && (rest[0].ValueToken? || EndsPart(rest[0], state))
             else Starts(tokens[0]) || (ValueWhere(state) == InBlockMap && tokens[0].BlockEntryToken?)
    ensures KeyStep(m) == SlotStep(key, m.(tokens := tokens), ValueWhere(state), state)
  {
    hide ParseNode;
    assert m.tokens[1..] == tokens;
  }

  lemma PartSplit(p: Part, rest: seq<Token>)
    requires !p.Single?
    ensures PartTokens(p) + rest == [KeyToken] + (SynTokens(p.key) + (ValueTokens(p) + rest))
  {
    hide SynTokens;
  }

  /** A key, and its value or none. */
  lemma EntryParsed(p: Part, m: Machine, rest: seq<Token>, state: ParseState)
    requires (m.state == AtBlockMappingKey && state == AtBlockMappingValue)
          || (m.state == AtFlowMappingKey && state == AtFlowMappingValue)
    requires !p.Single? && LegalPart(p, ValueWhere(state), m.directives)
    requires m.tokens == PartTokens(p) + rest && rest != [] && EndsPart(rest[0], state)
    ensures Begins(KeyStep(m), OnePairEvents(PartPair(p, m.directives)), m.(tokens := rest))
    decreases p, 8
  {
    hide Step, Parses, NodeEvents, SynNode, Begins, Legal, SynTokens, KeyStep;
    var more := ValueTokens(p) + rest;
    PartSplit(p, rest);
    if p.Keyed? { assert more == rest; }
    KeyParsed(p, m, more, state);
    ValueParsed(p, m.(state := state, tokens := more), rest);
    BeginsOn(KeyStep(m), NodeEvents(SynNode(p.key, m.directives)), m.(state := state, tokens := more),
             NodeEvents(PartPair(p, m.directives).value), m.(tokens := rest));
  }

  lemma PairsSplit(parts: seq<Part>, ds: seq<TagDirective>, end: Event)
    requires parts != []
    ensures PairEvents(PartPairs(parts, ds)) + [end]
         == OnePairEvents(PartPair(parts[0], ds)) + (PairEvents(PartPairs(parts[1..], ds)) + [end])
  {
    hide PartPair, OnePairEvents;
    assert PartPairs(parts, ds)[0] == PartPair(parts[0], ds) && PartPairs(parts, ds)[1..] == PartPairs(parts[1..], ds);
  }

  lemma {:induction false} BlockMapParsed(parts: seq<Part>, m: Machine, rest: seq<Token>)
    requires LegalParts(parts, InBlockMap, m.directives) && m.states != [] && m.state == AtBlockMappingFirstKey
    requires m.tokens == [BlockMappingStartToken] + PairTokens(parts) + [BlockEndToken] + rest
    ensures Parses(m, PairEvents(PartPairs(parts, m.directives)) + [MappingEnd], Back(m, rest))
    decreases parts, 1
  {
    hide Step, PairTokens, PartPairs, PairEvents, Parses;
    var body := PairTokens(parts) + ([BlockEndToken] + rest);
    assert m.tokens == [BlockMappingStartToken] + body;
    StartPassed(m, BlockMappingStartToken, body, AtBlockMappingKey);
    BlockPairsParsed(parts, PassStart(m, AtBlockMappingKey), rest);
    EnterBlock(m, PairEvents(PartPairs(parts, m.directives)) + [MappingEnd], Back(m, rest));
  }

  lemma PairFollows(parts: seq<Part>, tail: seq<Token>, ds: seq<TagDirective>)
    requires LegalParts(parts, InBlockMap, ds) && tail != [] && tail[0].BlockEndToken?
    ensures var rest := PairTokens(parts) + tail; rest != [] && (rest[0].KeyToken? || rest[0].BlockEndToken?)
    ensures parts != [] ==> PairTokens(parts) + tail == PartTokens(parts[0]) + (PairTokens(parts[1..]) + tail)
  {
    hide SynTokens, Legal;
    if parts == [] {
      assert PairTokens(parts) + tail == tail;
    } else {
      var p := parts[0];
      assert LegalPart(p, InBlockMap, ds);
      assert PartTokens(p)[0] == KeyToken;
    }
  }

  lemma {:induction false} BlockPairsParsed(parts: seq<Part>, m: Machine, rest: seq<Token>)
    requires LegalParts(parts, InBlockMap, m.directives)
    requires m.state == AtBlockMappingKey && m.states != [] && m.marks > 0
    requires m.tokens == PairTokens(parts) + ([BlockEndToken] + rest)
    ensures Parses(m, PairEvents(PartPairs(parts, m.directives)) + [MappingEnd], Back(m.(marks := m.marks - 1), rest))
    decreases parts, 0
  {
    hide Step, Parses, Begins, OnePairEvents, PartPair, PartTokens, Legal;
    var tail := [BlockEndToken] + rest;
    var all := PairEvents(PartPairs(parts, m.directives)) + [MappingEnd];
    if parts == [] {
      assert m.tokens == tail && all == [MappingEnd];
      EndParsed(m, rest);
    } else {
      PairFollows(parts, tail, m.directives);
      PairFollows(parts[1..], tail, m.directives);
      var more := PairTokens(parts[1..]) + tail;
      EntryParsed(parts[0], m, more, AtBlockMappingValue);
      BlockPairsParsed(parts[1..], m.(tokens := more), rest);
      PairsSplit(parts, m.directives, MappingEnd);
      StepBegins(m, OnePairEvents(PartPair(parts[0], m.directives)), m.(tokens := more),
                 PairEvents(PartPairs(parts[1..], m.directives)) + [MappingEnd], Back(m.(marks := m.marks - 1), rest));
    }
  }

  // ---------- flow collections ----------

  /** The entry at hand, of a mapping or of a sequence. */
  function ItemStep(m: Machine): Outcome {
    if m.state == AtFlowMappingKey then FlowMappingItem(m) else FlowSequenceItem(m)
  }

  predicate EndsItem(t: Token, state: ParseState) {
    t.FlowEntryToken? || (if state == AtFlowMappingKey then t.FlowMappingEndToken? else t.FlowSequenceEndToken?)
  }

  function CloseOf(state: ParseState): Token {
    if state == AtFlowMappingKey then FlowMappingEndToken else FlowSequenceEndToken
  }

  function EndOf(state: ParseState): Event {
    if state == AtFlowMappingKey then MappingEnd else SequenceEnd
  }

  function PartEvents(p: Part, state: ParseState, ds: seq<TagDirective>): seq<Event> {
    if state == AtFlowMappingKey then OnePairEvents(PartPair(p, ds)) else NodeEvents(PartNode(p, ds))
  }

  function FlowEvents(parts: seq<Part>, state: ParseState, ds: seq<TagDirective>): seq<Event> {
    if state == AtFlowMappingKey then PairEvents(PartPairs(parts, ds)) else ItemEvents(PartNodes(parts, ds))
  }

  /** A node by itself: an item, or a key without a value. */
  lemma SingleParsed(p: Part, m: Machine, rest: seq<Token>)
    requires m.state == AtFlowMappingKey || m.state == AtFlowSequenceEntry
    requires p.Single? && LegalPart(p, InFlow, m.directives)
    requires m.tokens == SynTokens(p.node) + rest && rest != [] && EndsItem(rest[0], m.state)
    ensures Begins(ItemStep(m), PartEvents(p, m.state, m.directives), m.(tokens := rest))
    decreases p, 8
  {
    hide Parses, NodeEvents, SynNode, Begins, ParseNode, Legal, SynTokens;
    FirstOf(p.node, InFlow, m.directives);
    assert m.tokens[0] == SynTokens(p.node)[0];
    if m.state == AtFlowMappingKey {
      var m1 := m.(state := AtFlowMappingEmptyValue, tokens := rest);
      NodeParsed(p.node, PushState(m, AtFlowMappingEmptyValue), rest, InFlow);
      BackPushed(m, AtFlowMappingEmptyValue, m.tokens, rest);
      assert Step(m1) == Produced(EmptyScalar, m.(tokens := rest));
      NullBegins(m.(tokens := rest));
      BeginsOn(ItemStep(m), NodeEvents(SynNode(p.node, m.directives)), m1, NodeEvents(NULL_NODE), m.(tokens := rest));
    } else {
      NodeParsed(p.node, PushState(m, AtFlowSequenceEntry), rest, InFlow);
      BackPushed(m, AtFlowSequenceEntry, m.tokens, rest);
    }
  }

  /** A key in a sequence begins a mapping of one entry. */
  lemma InnerMapParsed(p: Part, m: Machine, rest: seq<Token>)
    requires m.state == AtFlowSequenceEntry && !p.Single? && !p.key.Nothing? && LegalPart(p, InFlow, m.directives)
    requires m.tokens == PartTokens(p) + rest && rest != [] && EndsItem(rest[0], m.state)
    ensures Begins(FlowSequenceItem(m), NodeEvents(PartNode(p, m.directives)), m.(tokens := rest))
    decreases p, 8
  {
    hide Parses, NodeEvents, SynNode, Begins, NodeStep, Legal, SynTokens, Step, FlowSequenceItem;
    var more := ValueTokens(p) + rest;
    if p.Keyed? { assert more == rest; }
    PartSplit(p, rest);
    var m1 := m.(state := AtFlowSequenceEntryMappingKey, tokens := SynTokens(p.key) + more);
    KeyOpensMap(m, m1.tokens);
    var m2 := m.(state := AtFlowSequenceEntryMappingValue, tokens := more);
    FirstOf(p.key, InFlow, m.directives);
    assert m1.tokens[0] == SynTokens(p.key)[0];
    NodeParsed(p.key, PushState(m1, AtFlowSequenceEntryMappingValue), more, InFlow);
    BackPushed(m1, AtFlowSequenceEntryMappingValue, m1.tokens, more);
    KeyOfMap(m1);
    var m3 := m.(state := AtFlowSequenceEntryMappingEnd, tokens := rest);
    ValueParsed(p, m2, rest);
    var pair := PartPair(p, m.directives);
    BeginsOn(Step(m1), NodeEvents(pair.key), m2, NodeEvents(pair.value), m3);
    MapEndParsed(m3);
    MapWrapped(m, m1, pair, m3, rest);
  }

  lemma KeyOpensMap(m: Machine, tokens: seq<Token>)
    requires m.state == AtFlowSequenceEntry && m.tokens == [KeyToken] + tokens
    ensures FlowSequenceItem(m)
        == Produced(MappingStart("", ""), m.(state := AtFlowSequenceEntryMappingKey, tokens := tokens))
  {
    hide ParseNode;
    assert m.tokens[1..] == tokens;
  }

  lemma KeyOfMap(m: Machine)
    requires m.state == AtFlowSequenceEntryMappingKey && m.tokens != [] && Starts(m.tokens[0])
    ensures Step(m) == NodeStep(PushState(m, AtFlowSequenceEntryMappingValue), InFlow)
  {
    hide ParseNode;
  }

  lemma MapEndParsed(m: Machine)
    requires m.state == AtFlowSequenceEntryMappingEnd && m.tokens != []
    ensures Parses(m, [MappingEnd], m.(state := AtFlowSequenceEntry))
  {
    OneEvent(MappingEnd, m.(state := AtFlowSequenceEntry));
  }

  lemma MapWrapped(m: Machine, m1: Machine, pair: Pair, m3: Machine, rest: seq<Token>)
    requires FlowSequenceItem(m) == Produced(MappingStart("", ""), m1)
    requires Begins(Step(m1), NodeEvents(pair.key) + NodeEvents(pair.value), m3)
    requires Parses(m3, [MappingEnd], m.(tokens := rest))
    ensures Begins(FlowSequenceItem(m), NodeEvents(MappingNode("", "", [pair])), m.(tokens := rest))
  {
    hide Step, Parses, NodeEvents, FlowSequenceItem;
    var inner := NodeEvents(pair.key) + NodeEvents(pair.value);
    StepBegins(m1, inner, m3, [MappingEnd], m.(tokens := rest));
    OnePairNode(pair);
    var es := [MappingStart("", "")] + inner + [MappingEnd];
    assert es[1..] == inner + [MappingEnd];
  }

  lemma OnePairNode(pair: Pair)
    ensures NodeEvents(MappingNode("", "", [pair]))
         == [MappingStart("", "")] + (NodeEvents(pair.key) + NodeEvents(pair.value)) + [MappingEnd]
  {
    assert PairEvents([pair][1..]) == [];
    assert PairEvents([pair]) == OnePairEvents(pair) + [];
  }

  lemma ItemParsed(p: Part, m: Machine, rest: seq<Token>)
    requires m.state == AtFlowMappingKey || m.state == AtFlowSequenceEntry
    requires LegalPart(p, InFlow, m.directives) && (m.state == AtFlowSequenceEntry && !p.Single? ==> !p.key.Nothing?)
    requires m.tokens == PartTokens(p) + rest && rest != [] && EndsItem(rest[0], m.state)
    ensures Begins(ItemStep(m), PartEvents(p, m.state, m.directives), m.(tokens := rest))
    decreases p, 9
  {
    hide Step, Parses, NodeEvents, SynNode, Begins, ParseNode, Legal, SynTokens;
    if p.Single? {
      SingleParsed(p, m, rest);
    } else if m.state == AtFlowMappingKey {
      EntryParsed(p, m, rest, AtFlowMappingValue);
    } else {
      InnerMapParsed(p, m, rest);
    }
  }

  predicate Listed(parts: seq<Part>, state: ParseState, ds: seq<TagDirective>) {
    LegalParts(parts, InFlow, ds) && (state == AtFlowSequenceEntry ==> KeysThere(parts))
  }

  lemma MoreFollows(parts: seq<Part>, comma: bool, tail: seq<Token>, state: ParseState)
    requires tail != [] && tail[0] == CloseOf(state)
    ensures var rest := MoreTokens(parts, comma) + tail; rest != [] && EndsItem(rest[0], state)
    ensures parts != [] ==>
      MoreTokens(parts, comma) + tail
        == [FlowEntryToken] + (PartTokens(parts[0]) + (MoreTokens(parts[1..], comma) + tail))
  {
    hide PartTokens;
    if parts == [] && !comma { assert MoreTokens(parts, comma) + tail == tail; }
  }

  lemma FlowSplit(parts: seq<Part>, state: ParseState, ds: seq<TagDirective>)
    requires parts != []
    ensures FlowEvents(parts, state, ds) + [EndOf(state)]
         == PartEvents(parts[0], state, ds) + (FlowEvents(parts[1..], state, ds) + [EndOf(state)])
  {
    hide PartNode, NodeEvents, OnePairEvents, PartPair;
    if state == AtFlowMappingKey {
      PairsSplit(parts, ds, MappingEnd);
    } else {
      assert PartNodes(parts, ds)[0] == PartNode(parts[0], ds);
      assert PartNodes(parts, ds)[1..] == PartNodes(parts[1..], ds);
    }
  }

  /** FLOW-ENTRY is passed together with what comes behind it. */
  lemma EntryPassed(m: Machine, body: seq<Token>)
    requires m.state == AtFlowMappingKey || m.state == AtFlowSequenceEntry
    requires m.tokens == [FlowEntryToken] + body
    ensures Step(m) == ItemStep(m.(tokens := body))
  {
    hide FlowMappingItem, FlowSequenceItem;
    assert m.tokens[1..] == body;
  }

  lemma CloseBegins(m: Machine, rest: seq<Token>)
    requires (m.state == AtFlowMappingKey || m.state == AtFlowSequenceEntry) && m.states != [] && m.marks > 0
    requires m.tokens == [CloseOf(m.state)] + rest
    ensures Begins(ItemStep(m), [EndOf(m.state)], Back(m.(marks := m.marks - 1), rest))
  {
    hide ParseNode;
    assert m.tokens[1..] == rest;
    OneEvent(EndOf(m.state), Back(m.(marks := m.marks - 1), rest));
  }

  lemma ClosePassed(m: Machine)
    requires (m.state == AtFlowMappingKey || m.state == AtFlowSequenceEntry) && m.tokens != []
    requires m.tokens[0] == CloseOf(m.state)
    ensures Step(m) == ItemStep(m)
  {
    hide FlowMappingItem, FlowSequenceItem;
  }

  lemma BackForgets(m: Machine, tokens: seq<Token>, rest: seq<Token>)
    requires m.states != []
    ensures Back(m.(tokens := tokens), rest) == Back(m, rest)
  {
  }

  lemma CloseParsed(m: Machine, comma: bool, rest: seq<Token>)
    requires (m.state == AtFlowMappingKey || m.state == AtFlowSequenceEntry) && m.states != [] && m.marks > 0
    requires m.tokens == (if comma then [FlowEntryToken] else []) + ([CloseOf(m.state)] + rest)
    ensures Parses(m, [EndOf(m.state)], Back(m.(marks := m.marks - 1), rest))
  {
    hide Step, ItemStep, Parses, Begins, CloseOf, EndOf, Back;
    var close := [CloseOf(m.state)] + rest;
    if comma {
      EntryPassed(m, close);
    } else {
      assert m.tokens == close;
      ClosePassed(m);
      assert m.(tokens := close) == m;
    }
    CloseBegins(m.(tokens := close), rest);
    BackForgets(m.(marks := m.marks - 1), close, rest);
    ItemIsParses(m, m.(tokens := close), [EndOf(m.state)], Back(m.(marks := m.marks - 1), rest));
  }

  lemma {:induction false} MoreParsed(parts: seq<Part>, comma: bool, m: Machine, rest: seq<Token>)
    requires (m.state == AtFlowMappingKey || m.state == AtFlowSequenceEntry) && m.states != [] && m.marks > 0
    requires Listed(parts, m.state, m.directives)
    requires m.tokens == MoreTokens(parts, comma) + ([CloseOf(m.state)] + rest)
    ensures Parses(m, FlowEvents(parts, m.state, m.directives) + [EndOf(m.state)], Back(m.(marks := m.marks - 1), rest))
    decreases parts, 0
  {
    hide Step, Parses, Begins, PartEvents, PartTokens, Legal, ItemStep;
    var tail := [CloseOf(m.state)] + rest;
    if parts == [] {
      NoFlowEvents(m.state, m.directives);
      CloseParsed(m, comma, rest);
    } else {
      MoreFollows(parts, comma, tail, m.state);
      MoreFollows(parts[1..], comma, tail, m.state);
      var more := MoreTokens(parts[1..], comma) + tail;
      EntryPassed(m, PartTokens(parts[0]) + more);
      ItemParsed(parts[0], m.(tokens := PartTokens(parts[0]) + more), more);
      FewerKeys(parts);
      MoreParsed(parts[1..], comma, m.(tokens := more), rest);
      FlowSplit(parts, m.state, m.directives);
      StepBegins(m, PartEvents(parts[0], m.state, m.directives), m.(tokens := more),
                 FlowEvents(parts[1..], m.state, m.directives) + [EndOf(m.state)],
                 Back(m.(marks := m.marks - 1), rest));
    }
  }

  lemma FewerKeys(parts: seq<Part>)
    requires parts != []
    ensures KeysThere(parts) ==> KeysThere(parts[1..]) && (!parts[0].Single? ==> !parts[0].key.Nothing?)
  {
  }

  lemma NoFlowEvents(state: ParseState, ds: seq<TagDirective>)
    ensures FlowEvents([], state, ds) + [EndOf(state)] == [EndOf(state)]
  {
  }

  /** The first entry, or the end, behind the opening bracket. */
  lemma {:induction false} FirstParsed(parts: seq<Part>, comma: bool, m: Machine, rest: seq<Token>)
    requires (m.state == AtFlowMappingKey || m.state == AtFlowSequenceEntry) && m.states != [] && m.marks > 0
    requires Listed(parts, m.state, m.directives)
    requires m.tokens == FlowTokens(parts, comma) + ([CloseOf(m.state)] + rest)
    ensures Begins(ItemStep(m), FlowEvents(parts, m.state, m.directives) + [EndOf(m.state)],
                   Back(m.(marks := m.marks - 1), rest))
    decreases parts, 1
  {
    hide Step, Parses, PartEvents, PartTokens, Legal, ItemStep, Begins;
    var tail := [CloseOf(m.state)] + rest;
    if parts == [] {
      NoFlowEvents(m.state, m.directives);
      assert m.tokens == tail;
      CloseBegins(m, rest);
    } else {
      MoreFollows(parts[1..], comma, tail, m.state);
      var more := MoreTokens(parts[1..], comma) + tail;
      assert m.tokens == PartTokens(parts[0]) + more;
      ItemParsed(parts[0], m, more);
      FewerKeys(parts);
      MoreParsed(parts[1..], comma, m.(tokens := more), rest);
      FlowSplit(parts, m.state, m.directives);
      BeginsThen(ItemStep(m), PartEvents(parts[0], m.state, m.directives), m.(tokens := more),
                 FlowEvents(parts[1..], m.state, m.directives) + [EndOf(m.state)],
                 Back(m.(marks := m.marks - 1), rest));
    }
  }

  lemma BeginsThen(o: Outcome, a: seq<Event>, m1: Machine, b: seq<Event>, m2: Machine)
    requires Begins(o, a, m1) && Parses(m1, b, m2)
    ensures Begins(o, a + b, m2)
  {
    hide Step;
    ParsesOn(o.next, a[1..], m1, b, m2);
    assert (a + b)[1..] == a[1..] + b;
  }

  lemma ItemIsParses(m: Machine, m1: Machine, events: seq<Event>, m2: Machine)
    requires Step(m) == ItemStep(m1) && Begins(ItemStep(m1), events, m2)
    ensures Parses(m, events, m2)
  {
    hide Step, ItemStep;
  }

  lemma {:induction false} FlowListParsed(parts: seq<Part>, comma: bool, m: Machine, rest: seq<Token>)
    requires LegalParts(parts, InFlow, m.directives) && KeysThere(parts)
    requires m.states != [] && m.state == AtFlowSequenceFirstEntry
    requires m.tokens == [FlowSequenceStartToken] + FlowTokens(parts, comma) + [FlowSequenceEndToken] + rest
    ensures Parses(m, ItemEvents(PartNodes(parts, m.directives)) + [SequenceEnd], Back(m, rest))
    decreases parts, 2
  {
    hide Parses, FlowTokens, PartNodes, ItemEvents, LegalParts, KeysThere, FlowSequenceItem, Begins;
    var body := FlowTokens(parts, comma) + ([FlowSequenceEndToken] + rest);
    assert m.tokens == [FlowSequenceStartToken] + body;
    StartPassed(m, FlowSequenceStartToken, body, AtFlowSequenceEntry);
    var m1 := PassStart(m, AtFlowSequenceEntry);
    FirstParsed(parts, comma, m1, rest);
    ItemIsParses(m, m1, ItemEvents(PartNodes(parts, m.directives)) + [SequenceEnd], Back(m, rest));
  }

  lemma {:induction false} FlowMapParsed(parts: seq<Part>, comma: bool, m: Machine, rest: seq<Token>)
    requires LegalParts(parts, InFlow, m.directives) && m.states != [] && m.state == AtFlowMappingFirstKey
    requires m.tokens == [FlowMappingStartToken] + FlowTokens(parts, comma) + [FlowMappingEndToken] + rest
    ensures Parses(m, PairEvents(PartPairs(parts, m.directives)) + [MappingEnd], Back(m, rest))
    decreases parts, 2
  {
    hide Parses, FlowTokens, PartPairs, PairEvents, LegalParts, FlowMappingItem, Begins;
    var body := FlowTokens(parts, comma) + ([FlowMappingEndToken] + rest);
    assert m.tokens == [FlowMappingStartToken] + body;
    StartPassed(m, FlowMappingStartToken, body, AtFlowMappingKey);
    var m1 := PassStart(m, AtFlowMappingKey);
    FirstParsed(parts, comma, m1, rest);
    ItemIsParses(m, m1, PairEvents(PartPairs(parts, m.directives)) + [MappingEnd], Back(m, rest));
  }
}
