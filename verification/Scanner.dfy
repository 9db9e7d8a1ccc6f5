/**
 The scanner between scalars: simple keys, the indentation stack and the token list, one
 fetched token at a time. `tokens` lists every token ever queued; the first `parsed` of them
 have been handed to the parser.
 */
module Scanner {
  import opened Chars
  import opened ScalarScan
  import opened Options
  import opened Resolve
  import opened Tokens
  import opened NameScan

  datatype SimpleKey = SimpleKey(required: bool, number: nat, mark: Mark)

  datatype State = State(
    mark: Mark,
    indent: int,
    indents: seq<int>,
    flow: nat,
    keys: seq<Option<SimpleKey>>,   // one for each open flow collection, and one for the block
    keyAllowed: bool,
    tokens: seq<Token>,
    parsed: nat,
    started: bool)

  const StartState := State(Mark(0, 0, 0), 0, [], 0, [], false, [], 0, false)

  datatype ScanFailure =
    | ScalarFailure(error: ScanError)
    | NameFailure(name: NameError)
    | MissingColon
    | EntryNotAllowed
    | KeyNotAllowed
    | ValueNotAllowed
    | TooDeep
    | BadStart
    | NotModelled     // comments and block scalars

  type Fetched = Result<State, ScanFailure>

  const MAX_INDENTS := 10000
  const MAX_FLOW_LEVEL := 10000

  // ---------- the token list ----------

  /** Puts a token at `position` of those not yet parsed, or at the end. */
  function InsertToken(sc: State, position: int, token: Token): State {
    var k := sc.parsed + position;
    if position < 0 || k > |sc.tokens| then sc.(tokens := sc.tokens + [token])
    else sc.(tokens := sc.tokens[..k] + [token] + sc.tokens[k..])
  }

  function AppendToken(sc: State, token: Token): State {
    sc.(tokens := sc.tokens + [token])
  }

  // ---------- simple keys ----------

  predicate KeyValid(sc: State, key: SimpleKey) {
    key.mark.line >= sc.mark.line && key.mark.index + 1024 >= sc.mark.index
  }

  function RemoveKey(sc: State): Fetched {
    if sc.keys == [] then Ok(sc)
    else
      var last := |sc.keys| - 1;
      if sc.keys[last].Some? && sc.keys[last].value.required then Err(MissingColon)
      else Ok(sc.(keys := sc.keys[last := None]))
  }

  function SaveKey(sc: State): Fetched {
    if !sc.keyAllowed || sc.keys == [] then Ok(sc)
    else
      match RemoveKey(sc)
      case Err(e) => Err(e)
      case Ok(sc1) =>
        var required := sc.flow == 0 && sc.indent == sc.mark.column;
        Ok(sc1.(keys := sc1.keys[|sc.keys| - 1 := Some(SimpleKey(required, |sc.tokens|, sc.mark))]))
  }

  // ---------- indentation ----------

  /** `number` is the number of the token to stand behind, or -1 for the end of the list. */
  function RollIndent(sc: State, column: int, number: int, token: Token): Fetched {
    if sc.flow > 0 || sc.indent >= column then Ok(sc)
    else
      var sc1 := sc.(indents := sc.indents + [sc.indent], indent := column);
      if |sc1.indents| > MAX_INDENTS then Err(TooDeep)
      else Ok(InsertToken(sc1, if number > -1 then number - sc.parsed else number, token))
  }

  function UnrollIndent(sc: State, column: int): State
    decreases |sc.indents|
  {
    if sc.flow > 0 || sc.indent <= column || sc.indents == [] then sc
    else
      var last := |sc.indents| - 1;
      UnrollIndent(AppendToken(sc, BlockEndToken).(indent := sc.indents[last], indents := sc.indents[..last]),
                   column)
  }

  // ---------- fetching ----------

  /** Passes blanks and line breaks; a new line in a block may start a simple key. */
  function Settle(t: string, m: Mark, flow: nat, allowed: bool): (Mark, bool)
    decreases Left(t, m)
  {
    var c := Ch(t, m.index);
    if c == ' ' || (c == '\t' && (flow > 0 || !allowed)) then Settle(t, Skip(m), flow, allowed)
    else if IsBreak(c) then Settle(t, SkipLine(t, m), flow, allowed || flow == 0)
    else (m, allowed)
  }

  function Settled(t: string, sc: State): State {
    var (m, allowed) := Settle(t, sc.mark, sc.flow, sc.keyAllowed);
    sc.(mark := m, keyAllowed := allowed)
  }

  /** Before a token: blanks are passed and deeper blocks closed. */
  function Prepared(t: string, sc: State): State {
    var sc1 := Settled(t, sc);
    UnrollIndent(sc1, sc1.mark.column)
  }

  function FetchStreamStart(sc: State): State {
    AppendToken(sc.(indent := -1, keys := sc.keys + [None], keyAllowed := true, started := true),
                StreamStartToken)
  }

  function FetchStreamEnd(sc: State): Fetched {
    var m := if sc.mark.column != 0 then Mark(sc.mark.index, sc.mark.line + 1, 0) else sc.mark;
    match RemoveKey(UnrollIndent(sc.(mark := m), -1))
    case Err(e) => Err(e)
    case Ok(sc1) => Ok(AppendToken(sc1.(keyAllowed := false), StreamEndToken))
  }

  function FetchDocumentIndicator(sc: State, token: Token): Fetched {
    match RemoveKey(UnrollIndent(sc, -1))
    case Err(e) => Err(e)
    case Ok(sc1) => Ok(AppendToken(sc1.(keyAllowed := false, mark := Advance(sc.mark, 3)), token))
  }

  function FetchFlowStart(sc: State, token: Token): Fetched {
    match SaveKey(sc)
    case Err(e) => Err(e)
    case Ok(sc1) =>
      if sc1.flow + 1 > MAX_FLOW_LEVEL then Err(TooDeep)
      else Ok(AppendToken(sc1.(keys := sc1.keys + [None], flow := sc1.flow + 1,
                               keyAllowed := true, mark := Skip(sc1.mark)), token))
  }

  function FetchFlowEnd(sc: State, token: Token): Fetched {
    match RemoveKey(sc)
    case Err(e) => Err(e)
    case Ok(sc1) =>
      var sc2 := if sc1.flow > 0 && sc1.keys != []
                 then sc1.(flow := sc1.flow - 1, keys := sc1.keys[..|sc1.keys| - 1]) else sc1;
      Ok(AppendToken(sc2.(keyAllowed := false, mark := Skip(sc2.mark)), token))
  }

  function FetchFlowEntry(sc: State): Fetched {
    match RemoveKey(sc)
    case Err(e) => Err(e)
    case Ok(sc1) => Ok(AppendToken(sc1.(keyAllowed := true, mark := Skip(sc1.mark)), FlowEntryToken))
  }

  function FetchBlockEntry(sc: State): Fetched {
    if sc.flow == 0 && !sc.keyAllowed then Err(EntryNotAllowed)
    else
      match RollIndent(sc, sc.mark.column, -1, BlockSequenceStartToken)
      case Err(e) => Err(e)
      case Ok(sc1) =>
        match RemoveKey(sc1)
        case Err(e) => Err(e)
        case Ok(sc2) => Ok(AppendToken(sc2.(keyAllowed := true, mark := Skip(sc2.mark)), BlockEntryToken))
  }

  function FetchKey(sc: State): Fetched {
    if sc.flow == 0 && !sc.keyAllowed then Err(KeyNotAllowed)
    else
      match RollIndent(sc, sc.mark.column, -1, BlockMappingStartToken)
      case Err(e) => Err(e)
      case Ok(sc1) =>
        match RemoveKey(sc1)
        case Err(e) => Err(e)
        case Ok(sc2) => Ok(AppendToken(sc2.(keyAllowed := sc2.flow == 0, mark := Skip(sc2.mark)), KeyToken))
  }

  /** A ':' after a simple key puts KEY, and BLOCK-MAPPING-START, before the key's token. */
  function FetchValue(sc: State): Fetched {
    var last := |sc.keys| - 1;
    if sc.keys != [] && sc.keys[last].Some? && KeyValid(sc, sc.keys[last].value) then
      var key := sc.keys[last].value;
      var sc1 := InsertToken(sc, key.number - sc.parsed, KeyToken);
      match RollIndent(sc1, key.mark.column, key.number, BlockMappingStartToken)
      case Err(e) => Err(e)
      case Ok(sc2) =>
        Ok(AppendToken(sc2.(keys := sc2.keys[last := None], keyAllowed := false,
                            mark := Skip(sc2.mark)), ValueToken))
    else if sc.keys != [] && sc.keys[last].Some? && sc.keys[last].value.required then Err(MissingColon)
    else if sc.flow == 0 && !sc.keyAllowed then Err(ValueNotAllowed)
    else
      var sc0 := if sc.keys == [] then sc else sc.(keys := sc.keys[last := None]);
      match RollIndent(sc0, sc.mark.column, -1, BlockMappingStartToken)
      case Err(e) => Err(e)
      case Ok(sc1) =>
        Ok(AppendToken(sc1.(keyAllowed := sc1.flow == 0, mark := Skip(sc1.mark)), ValueToken))
  }

  function FetchFlowScalar(t: string, sc: State, single: bool): Fetched {
    match SaveKey(sc)
    case Err(e) => Err(e)
    case Ok(sc1) =>
      match ScanFlow(t, single, sc1.mark)
      case FlowErr(e, _) => Err(ScalarFailure(e))
      case FlowOk(value, end) =>
        Ok(AppendToken(sc1.(keyAllowed := false, mark := end),
                       ScalarToken(value, if single then SingleQuoted else DoubleQuoted)))
  }

  function FetchPlainScalar(t: string, sc: State): Fetched {
    match SaveKey(sc)
    case Err(e) => Err(e)
    case Ok(sc1) =>
      match ScanPlain(t, sc1.flow, sc1.indent, sc1.mark)
      case PlainErr(e, _) => Err(ScalarFailure(e))
      case PlainOk(value, _, next, leading) =>
        Ok(AppendToken(sc1.(keyAllowed := leading, mark := next), ScalarToken(value, Plain)))
  }

  function FetchAnchor(t: string, sc: State, alias: bool): Fetched
    requires sc.mark.index < |t|
  {
    match SaveKey(sc)
    case Err(e) => Err(e)
    case Ok(sc1) =>
      match ScanAnchor(t, sc.mark.index)
      case Err(e) => Err(NameFailure(e))
      case Ok(name) =>
        Ok(AppendToken(sc1.(keyAllowed := false, mark := Advance(sc.mark, name.end - sc.mark.index)),
                       if alias then AliasToken(name.text) else AnchorToken(name.text)))
  }

  function FetchTag(t: string, sc: State): Fetched
    requires sc.mark.index < |t|
  {
    match SaveKey(sc)
    case Err(e) => Err(e)
    case Ok(sc1) =>
      match ScanTag(t, sc.mark.index)
      case Err(e) => Err(NameFailure(e))
      case Ok(tag) =>
        Ok(AppendToken(sc1.(keyAllowed := false, mark := Advance(sc.mark, tag.end - sc.mark.index)),
                       TagToken(tag.handle, tag.suffix)))
  }

  function FetchDirective(t: string, sc: State): Fetched
    requires sc.mark.index < |t|
  {
    match RemoveKey(UnrollIndent(sc, -1))
    case Err(e) => Err(e)
    case Ok(sc1) =>
      match ScanDirective(t, sc.mark)
      case Err(e) => Err(NameFailure(e))
      case Ok(d) => Ok(AppendToken(sc1.(keyAllowed := false, mark := d.1), d.0))
  }

  /** May begin a plain scalar where no other token begins. */
  predicate StartsPlain(t: string, flow: nat, k: nat) {
    var c := Ch(t, k);
    var next := Ch(t, k + 1);
    || !(IsBlankz(c) || c in "-?:,[]{}#&*!|>'\"%@`")
    || (c == '-' && !IsBlank(next))
    || (flow == 0 && (c == '?' || c == ':') && !IsBlankz(next))
  }

  function Dispatch(t: string, sc: State): Fetched {
    var k := sc.mark.index;
    var c := Ch(t, k);
    var spaced := IsBlankz(Ch(t, k + 1));
    if c == NUL then FetchStreamEnd(sc)
    else if c == '#' then Err(NotModelled)
    else if sc.mark.column == 0 && c == '%' then FetchDirective(t, sc)
    else if DocIndicatorAt(t, sc.mark) then
      FetchDocumentIndicator(sc, if c == '-' then DocumentStartToken else DocumentEndToken)
    else if c == '[' then FetchFlowStart(sc, FlowSequenceStartToken)
    else if c == '{' then FetchFlowStart(sc, FlowMappingStartToken)
    else if c == ']' then FetchFlowEnd(sc, FlowSequenceEndToken)
    else if c == '}' then FetchFlowEnd(sc, FlowMappingEndToken)
    else if c == ',' then FetchFlowEntry(sc)
    else if c == '-' && spaced then FetchBlockEntry(sc)
    else if c == '?' && (sc.flow > 0 || spaced) then FetchKey(sc)
    else if c == ':' && (sc.flow > 0 || spaced) then FetchValue(sc)
    else if c == '*' || c == '&' then FetchAnchor(t, sc, c == '*')
    else if c == '!' then FetchTag(t, sc)
    else if c in "|>" && sc.flow == 0 then Err(NotModelled)
    else if c == '\'' then FetchFlowScalar(t, sc, true)
    else if c == '"' then FetchFlowScalar(t, sc, false)
    else if StartsPlain(t, sc.flow, k) then FetchPlainScalar(t, sc)
    else Err(BadStart)
  }

  function FetchNext(t: string, sc: State): Fetched {
    if !sc.started then Ok(FetchStreamStart(sc)) else Dispatch(t, Prepared(t, sc))
  }

  /** n tokens in a row. */
  function FetchMany(t: string, sc: State, n: nat): Fetched
    decreases n
  {
    if n == 0 then Ok(sc)
    else
      match FetchNext(t, sc)
      case Err(e) => Err(e)
      case Ok(sc1) => FetchMany(t, sc1, n - 1)
  }
}
