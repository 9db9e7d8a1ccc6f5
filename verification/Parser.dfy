/**
 The pushdown parser: one event for each step, from the tokens still to come. A pop of an
 empty stack, or a token read without looking whether there is one, is a Panic.
 */
module Parser {
  import opened Options
  import opened Resolve
  import opened Tokens

  datatype ParseState =
    | AtStreamStart
    | AtImplicitDocumentStart
    | AtDocumentStart
    | AtDocumentContent
    | AtDocumentEnd
    | AtBlockNode
    | AtBlockNodeOrIndentlessSequence
    | AtFlowNode
    | AtBlockSequenceFirstEntry
    | AtBlockSequenceEntry
    | AtIndentlessSequenceEntry
    | AtBlockMappingFirstKey
    | AtBlockMappingKey
    | AtBlockMappingValue
    | AtFlowSequenceFirstEntry
    | AtFlowSequenceEntry
    | AtFlowSequenceEntryMappingKey
    | AtFlowSequenceEntryMappingValue
    | AtFlowSequenceEntryMappingEnd
    | AtFlowMappingFirstKey
    | AtFlowMappingKey
    | AtFlowMappingValue
    | AtFlowMappingEmptyValue
    | AtEnd

  datatype ParseError =
    | NoToken            // the scanner failed
    | ExpectedStreamStart
    | ExpectedDocumentStart
    | ExpectedNode
    | ExpectedDash
    | ExpectedKey
    | ExpectedCommaOrBracket
    | ExpectedCommaOrBrace
    | DuplicateVersion
    | BadVersion
    | DuplicateTag
    | UndefinedTag

  datatype TagDirective = TagDirective(handle: string, prefix: string)

  /** `marks` counts the positions remembered for messages. */
  datatype Machine = Machine(state: ParseState, states: seq<ParseState>, marks: nat,
                             directives: seq<TagDirective>, tokens: seq<Token>)

  datatype Outcome = Produced(event: Event, next: Machine) | Failed(error: ParseError) | Panic

  function StartMachine(tokens: seq<Token>): Machine {
    Machine(AtStreamStart, [], 0, [], tokens)
  }

  const EmptyScalar := Scalar("", "", "", true)

  function Drop(m: Machine, n: nat): Machine
    requires n <= |m.tokens|
  {
    m.(tokens := m.tokens[n..])
  }

  function PushState(m: Machine, s: ParseState): Machine {
    m.(states := m.states + [s])
  }

  /** Produces the event and goes on in the state that was pushed last. */
  function Return(m: Machine, event: Event): Outcome {
    if m.states == [] then Panic
    else
      var last := |m.states| - 1;
      Produced(event, m.(state := m.states[last], states := m.states[..last]))
  }

  /** Return, at the end of a collection whose mark is dropped too. */
  function ReturnMarked(m: Machine, event: Event): Outcome {
    if m.marks == 0 then Panic else Return(m.(marks := m.marks - 1), event)
  }

  /** An error found inside a collection also drops its mark. */
  function FailMarked(m: Machine, error: ParseError): Outcome {
    if m.marks == 0 then Panic else Failed(error)
  }

  // ---------- directives ----------

  const DEFAULT_DIRECTIVES := [TagDirective("!", "!"), TagDirective("!!", "tag:yaml.org,2002:")]

  function FindDirective(ds: seq<TagDirective>, handle: string): Option<string> {
    if ds == [] then None
    else if ds[0].handle == handle then Some(ds[0].prefix)
    else FindDirective(ds[1..], handle)
  }

  function WithDefault(ds: seq<TagDirective>, d: TagDirective): seq<TagDirective> {
    if FindDirective(ds, d.handle).Some? then ds else ds + [d]
  }

  function WithDefaults(ds: seq<TagDirective>): seq<TagDirective> {
    WithDefault(WithDefault(ds, DEFAULT_DIRECTIVES[0]), DEFAULT_DIRECTIVES[1])
  }

  function ProcessDirectives(m: Machine, version: bool): Result<Machine, ParseError>
    decreases |m.tokens|
  {
    if m.tokens == [] then Err(NoToken)
    else
      match m.tokens[0]
      case VersionDirectiveToken(major, minor) =>
        if version then Err(DuplicateVersion)
        else if major != 1 || minor != 1 then Err(BadVersion)
        else ProcessDirectives(Drop(m, 1), true)
      case TagDirectiveToken(handle, prefix) =>
        if FindDirective(m.directives, handle).Some? then Err(DuplicateTag)
        else
          var ds := m.directives + [TagDirective(handle, prefix)];
          ProcessDirectives(Drop(m, 1).(directives := ds), version)
      case _ => Ok(m.(directives := WithDefaults(m.directives)))
  }

  // ---------- documents ----------

  function ParseStreamStart(m: Machine): Outcome {
    if m.tokens == [] then Failed(NoToken)
    else if !m.tokens[0].StreamStartToken? then Failed(ExpectedStreamStart)
    else Produced(StreamStart, Drop(m, 1).(state := AtImplicitDocumentStart))
  }

  function SkipDocumentEnds(tokens: seq<Token>): seq<Token> {
    if tokens != [] && tokens[0].DocumentEndToken? then SkipDocumentEnds(tokens[1..]) else tokens
  }

  predicate EndsContent(t: Token) {
    t.VersionDirectiveToken? || t.TagDirectiveToken? || t.DocumentStartToken? || t.StreamEndToken?
  }

  function ParseDocumentStart(m0: Machine, implicit: bool): Outcome {
    var m := if implicit then m0 else m0.(tokens := SkipDocumentEnds(m0.tokens));
    if m.tokens == [] then Failed(NoToken)
    else if implicit && !EndsContent(m.tokens[0]) then
      match ProcessDirectives(m, false)
      case Err(e) => Failed(e)
      case Ok(m1) => Produced(DocumentStart, PushState(m1, AtDocumentEnd).(state := AtBlockNode))
    else if !m.tokens[0].StreamEndToken? then
      match ProcessDirectives(m, false)
      case Err(e) => Failed(e)
      case Ok(m1) =>
        if m1.tokens == [] then Failed(NoToken)
        else if !m1.tokens[0].DocumentStartToken? then Failed(ExpectedDocumentStart)
        else Produced(DocumentStart, PushState(Drop(m1, 1), AtDocumentEnd).(state := AtDocumentContent))
    else Produced(StreamEnd, Drop(m, 1).(state := AtEnd))
  }

  function ParseDocumentContent(m: Machine): Outcome {
    if m.tokens == [] then Failed(NoToken)
    else if EndsContent(m.tokens[0]) || m.tokens[0].DocumentEndToken? then Return(m, EmptyScalar)
    else ParseNode(m, true, false)
  }

  function ParseDocumentEnd(m: Machine): Outcome {
    if m.tokens == [] then Failed(NoToken)
    else
      var m1 := if m.tokens[0].DocumentEndToken? then Drop(m, 1) else m;
      Produced(DocumentEnd, m1.(state := AtDocumentStart, directives := []))
  }

  // ---------- nodes ----------

  /** The anchor and tag before a node, and the machine at its content. */
  datatype Properties = Properties(anchor: string, tag: string, rest: Machine)

  function ResolveTag(m: Machine, handle: string, suffix: string): Result<string, ParseError> {
    if handle == "" then Ok(suffix)
    else
      match FindDirective(m.directives, handle)
      case Some(prefix) => if prefix + suffix == "" then Err(UndefinedTag) else Ok(prefix + suffix)
      case None => Err(UndefinedTag)
  }

  function Tagged(m: Machine, anchor: string, tag: Token): Result<Properties, ParseError>
    requires tag.TagToken?
  {
    if m.tokens == [] then Err(NoToken)
    else
      match ResolveTag(m, tag.handle, tag.suffix)
      case Err(e) => Err(e)
      case Ok(t) => Ok(Properties(anchor, t, m))
  }

  function ReadProperties(m: Machine): Result<Properties, ParseError>
    requires m.tokens != []
  {
    var first := m.tokens[0];
    if !first.AnchorToken? && !first.TagToken? then Ok(Properties("", "", m))
    else if |m.tokens| == 1 then Err(NoToken)
    else
      var second := m.tokens[1];
      if first.AnchorToken? then
        if second.TagToken? then Tagged(Drop(m, 2), first.name, second)
        else Ok(Properties(first.name, "", Drop(m, 1)))
      else
        if second.AnchorToken? then Tagged(Drop(m, 2), second.name, first)
        else Tagged(Drop(m, 1), "", first)
  }

  function ParseContent(m: Machine, anchor: string, tag: string, block: bool, indentless: bool): Outcome
    requires m.tokens != []
  {
    var t := m.tokens[0];
    if indentless && t.BlockEntryToken? then
      Produced(SequenceStart(anchor, tag), m.(state := AtIndentlessSequenceEntry))
    else if t.ScalarToken? then
      var implicit := (tag == "" && t.style == Plain) || tag == "!";
      Return(Drop(m, 1), Scalar(anchor, tag, t.value, implicit))
    else if t.FlowSequenceStartToken? then
      Produced(SequenceStart(anchor, tag), m.(state := AtFlowSequenceFirstEntry))
    else if t.FlowMappingStartToken? then
      Produced(MappingStart(anchor, tag), m.(state := AtFlowMappingFirstKey))
    else if block && t.BlockSequenceStartToken? then
      Produced(SequenceStart(anchor, tag), m.(state := AtBlockSequenceFirstEntry))
    else if block && t.BlockMappingStartToken? then
      Produced(MappingStart(anchor, tag), m.(state := AtBlockMappingFirstKey))
    else if anchor != "" || tag != "" then Return(m, Scalar(anchor, tag, "", tag == ""))
    else Failed(ExpectedNode)
  }

  function ParseNode(m: Machine, block: bool, indentless: bool): Outcome {
    if m.tokens == [] then Failed(NoToken)
    else if m.tokens[0].AliasToken? then Return(Drop(m, 1), Alias(m.tokens[0].name))
    else
      match ReadProperties(m)
      case Err(e) => Failed(e)
      case Ok(Properties(anchor, tag, rest)) => ParseContent(rest, anchor, tag, block, indentless)
  }

  /** A node, or an empty scalar where the next token shows that none is there. */
  function NodeOrEmpty(m: Machine, there: Token -> bool, block: bool, indentless: bool, then_: ParseState): Outcome {
    if m.tokens == [] then Failed(NoToken)
    else if there(m.tokens[0]) then ParseNode(PushState(m, then_), block, indentless)
    else Produced(EmptyScalar, m.(state := then_))
  }

  /** The start token of a collection is passed when its first entry is asked for. */
  function PassStart(m: Machine, entered: ParseState): Machine
    requires m.tokens != []
  {
    Drop(m, 1).(marks := m.marks + 1, state := entered)
  }

  // ---------- block collections ----------

  function ParseBlockSequenceEntry(m: Machine): Outcome {
    if m.tokens == [] then Failed(NoToken)
    else if m.tokens[0].BlockEntryToken? then
      NodeOrEmpty(Drop(m, 1), (t: Token) => !t.BlockEntryToken? && !t.BlockEndToken?,
                  true, false, AtBlockSequenceEntry)
    else if m.tokens[0].BlockEndToken? then ReturnMarked(Drop(m, 1), SequenceEnd)
    else FailMarked(m, ExpectedDash)
  }

  predicate StartsMappingNode(t: Token) {
    !t.KeyToken? && !t.ValueToken? && !t.BlockEndToken?
  }

  function ParseIndentlessSequenceEntry(m: Machine): Outcome {
    if m.tokens == [] then Failed(NoToken)
    else if m.tokens[0].BlockEntryToken? then
      NodeOrEmpty(Drop(m, 1), (t: Token) => StartsMappingNode(t) && !t.BlockEntryToken?,
                  true, false, AtIndentlessSequenceEntry)
    else Return(m, SequenceEnd)
  }

  function ParseBlockMappingKey(m: Machine): Outcome {
    if m.tokens == [] then Failed(NoToken)
    else if m.tokens[0].KeyToken? then
      NodeOrEmpty(Drop(m, 1), StartsMappingNode, true, true, AtBlockMappingValue)
    else if m.tokens[0].BlockEndToken? then ReturnMarked(Drop(m, 1), MappingEnd)
    else FailMarked(m, ExpectedKey)
  }

  function ParseBlockMappingValue(m: Machine): Outcome {
    if m.tokens == [] then Failed(NoToken)
    else if m.tokens[0].ValueToken? then
      NodeOrEmpty(Drop(m, 1), StartsMappingNode, true, true, AtBlockMappingKey)
    else Produced(EmptyScalar, m.(state := AtBlockMappingKey))
  }

  // ---------- flow collections ----------

  function FlowSequenceItem(m: Machine): Outcome {
    if m.tokens == [] then Failed(NoToken)
    else if m.tokens[0].KeyToken? then
      Produced(MappingStart("", ""), Drop(m, 1).(state := AtFlowSequenceEntryMappingKey))
    else if !m.tokens[0].FlowSequenceEndToken? then ParseNode(PushState(m, AtFlowSequenceEntry), false, false)
    else ReturnMarked(Drop(m, 1), SequenceEnd)
  }

  function ParseFlowSequenceEntry(m: Machine, first: bool): Outcome {
    if m.tokens == [] then Failed(NoToken)
    else if first || m.tokens[0].FlowSequenceEndToken? then FlowSequenceItem(m)
    else if m.tokens[0].FlowEntryToken? then FlowSequenceItem(Drop(m, 1))
    else FailMarked(m, ExpectedCommaOrBracket)
  }

  /** The terminator of a key that is not there is passed too, as the source does. */
  function ParseFlowSequenceEntryMappingKey(m: Machine): Outcome {
    if m.tokens == [] then Failed(NoToken)
    else
      var t := m.tokens[0];
      if !t.ValueToken? && !t.FlowEntryToken? && !t.FlowSequenceEndToken? then
        ParseNode(PushState(m, AtFlowSequenceEntryMappingValue), false, false)
      else Produced(EmptyScalar, Drop(m, 1).(state := AtFlowSequenceEntryMappingValue))
  }

  function ParseFlowSequenceEntryMappingValue(m: Machine): Outcome {
    if m.tokens == [] then Failed(NoToken)
    else if m.tokens[0].ValueToken? then
      NodeOrEmpty(Drop(m, 1), (t: Token) => !t.FlowEntryToken? && !t.FlowSequenceEndToken?,
                  false, false, AtFlowSequenceEntryMappingEnd)
    else Produced(EmptyScalar, m.(state := AtFlowSequenceEntryMappingEnd))
  }

  function ParseFlowSequenceEntryMappingEnd(m: Machine): Outcome {
    if m.tokens == [] then Failed(NoToken)
    else Produced(MappingEnd, m.(state := AtFlowSequenceEntry))
  }

  function FlowMappingItem(m: Machine): Outcome {
    if m.tokens == [] then Failed(NoToken)
    else if m.tokens[0].KeyToken? then
      NodeOrEmpty(Drop(m, 1), (t: Token) => !t.ValueToken? && !t.FlowEntryToken? && !t.FlowMappingEndToken?,
                  false, false, AtFlowMappingValue)
    else if !m.tokens[0].FlowMappingEndToken? then ParseNode(PushState(m, AtFlowMappingEmptyValue), false, false)
    else ReturnMarked(Drop(m, 1), MappingEnd)
  }

  function ParseFlowMappingKey(m: Machine, first: bool): Outcome {
    if m.tokens == [] then Failed(NoToken)
    else if first || m.tokens[0].FlowMappingEndToken? then FlowMappingItem(m)
    else if m.tokens[0].FlowEntryToken? then FlowMappingItem(Drop(m, 1))
    else FailMarked(m, ExpectedCommaOrBrace)
  }

  function ParseFlowMappingValue(m: Machine, empty: bool): Outcome {
    if m.tokens == [] then Failed(NoToken)
    else if !empty && m.tokens[0].ValueToken? then
      NodeOrEmpty(Drop(m, 1), (t: Token) => !t.FlowEntryToken? && !t.FlowMappingEndToken?,
                  false, false, AtFlowMappingKey)
    else Produced(EmptyScalar, m.(state := AtFlowMappingKey))
  }

  // ---------- the state machine ----------

  function Step(m: Machine): Outcome {
    match m.state
    case AtStreamStart => ParseStreamStart(m)
    case AtImplicitDocumentStart => ParseDocumentStart(m, true)
    case AtDocumentStart => ParseDocumentStart(m, false)
    case AtDocumentContent => ParseDocumentContent(m)
    case AtDocumentEnd => ParseDocumentEnd(m)
    case AtBlockNode => ParseNode(m, true, false)
    case AtBlockNodeOrIndentlessSequence => ParseNode(m, true, true)
    case AtFlowNode => ParseNode(m, false, false)
    case AtBlockSequenceFirstEntry =>
      if m.tokens == [] then Failed(NoToken) else ParseBlockSequenceEntry(PassStart(m, AtBlockSequenceEntry))
    case AtBlockSequenceEntry => ParseBlockSequenceEntry(m)
    case AtIndentlessSequenceEntry => ParseIndentlessSequenceEntry(m)
    case AtBlockMappingFirstKey =>
      if m.tokens == [] then Failed(NoToken) else ParseBlockMappingKey(PassStart(m, AtBlockMappingKey))
    case AtBlockMappingKey => ParseBlockMappingKey(m)
    case AtBlockMappingValue => ParseBlockMappingValue(m)
    case AtFlowSequenceFirstEntry =>
      if m.tokens == [] then Failed(NoToken) else ParseFlowSequenceEntry(PassStart(m, AtFlowSequenceEntry), true)
    case AtFlowSequenceEntry => ParseFlowSequenceEntry(m, false)
    case AtFlowSequenceEntryMappingKey => ParseFlowSequenceEntryMappingKey(m)
    case AtFlowSequenceEntryMappingValue => ParseFlowSequenceEntryMappingValue(m)
    case AtFlowSequenceEntryMappingEnd => ParseFlowSequenceEntryMappingEnd(m)
    case AtFlowMappingFirstKey =>
      if m.tokens == [] then Panic else ParseFlowMappingKey(PassStart(m, AtFlowMappingKey), true)
    case AtFlowMappingKey => ParseFlowMappingKey(m, false)
    case AtFlowMappingValue => ParseFlowMappingValue(m, false)
    case AtFlowMappingEmptyValue => ParseFlowMappingValue(m, true)
    case AtEnd => Panic
  }
}
