/**
 The scanner as the parser asks it for tokens. One is handed over when two more wait behind it
 and it cannot turn out to be a simple key; whether it can, an index of the keys by their tokens
 tells. The index is not exact: closing a flow collection may take the entry of another key.
 */
module DemandScan {
  import opened Chars
  import opened ScalarScan
  import opened Options
  import opened Tokens
  import opened Scanner
  import opened ScanToEnd
  import NameScan

  /** The number that each slot for a key had last, possible or not; and the slots by number. */
  datatype Index = Index(numbers: seq<nat>, byTok: map<nat, nat>)

  type Slots = seq<Option<SimpleKey>>

  function Removed(ix: Index, keys: Slots): Index
    requires |ix.numbers| == |keys|
  {
    if keys != [] && keys[|keys| - 1].Some? then ix.(byTok := ix.byTok - {ix.numbers[|keys| - 1]}) else ix
  }

  function Saved(ix: Index, keys: Slots, allowed: bool, number: nat): Index
    requires |ix.numbers| == |keys|
  {
    if !allowed || keys == [] then ix
    else
      var last := |keys| - 1;
      Index(ix.numbers[last := number], Removed(ix, keys).byTok[number := last])
  }

  /** A new slot has the number of the token that is next, like the key saved for that token. */
  function Opened(ix: Index, number: nat): Index {
    ix.(numbers := ix.numbers + [number])
  }

  /** With the slot goes the entry of its number, whoever's it is. */
  function Closed(ix: Index, flow: nat): Index {
    if flow == 0 || ix.numbers == [] then ix
    else
      var last := |ix.numbers| - 1;
      Index(ix.numbers[..last], ix.byTok - {ix.numbers[last]})
  }

  /** A ':' takes the key out; a key that is no key any more keeps its entry. */
  function Used(ix: Index, sc: State): Index
    requires |ix.numbers| == |sc.keys|
  {
    var last := |sc.keys| - 1;
    if sc.keys != [] && sc.keys[last].Some? && KeyValid(sc, sc.keys[last].value) then
      ix.(byTok := ix.byTok - {ix.numbers[last]})
    else ix
  }

  /** What a fetch does to the key of its level. */
  datatype Act = Drop | Save | Open | Close | Use

  function ActOf(t: string, sc: State): Act {
    var k := sc.mark.index;
    var c := Ch(t, k);
    var spaced := IsBlankz(Ch(t, k + 1));
    if c == NUL || (sc.mark.column == 0 && c == '%') || DocIndicatorAt(t, sc.mark) then Drop
    else if c == '[' || c == '{' then Open
    else if c == ']' || c == '}' then Close
    else if c == ',' || (c == '-' && spaced) || (c == '?' && (sc.flow > 0 || spaced)) then Drop
    else if c == ':' && (sc.flow > 0 || spaced) then Use
    else Save
  }

  function IndexDispatch(t: string, sc: State, ix: Index): Index
    requires |ix.numbers| == |sc.keys|
  {
    var number := |sc.tokens|;
    match ActOf(t, sc)
    case Drop => Removed(ix, sc.keys)
    case Save => Saved(ix, sc.keys, sc.keyAllowed, number)
    case Open => Opened(Saved(ix, sc.keys, sc.keyAllowed, number), number)
    case Close => Closed(Removed(ix, sc.keys), sc.flow)
    case Use => Used(ix, sc)
  }

  /** The index after the next token has been fetched. */
  function IndexNext(t: string, sc: State, ix: Index): Index
    requires |ix.numbers| == |sc.keys|
  {
    if !sc.started then Index(ix.numbers + [0], map[])
    else
      UnrollStands(Settled(t, sc), Settled(t, sc).mark.column);
      IndexDispatch(t, Prepared(t, sc), ix)
  }

  // ---------- the head of the queue ----------

  datatype Demand = Demand(sc: State, ix: Index)

  const StartDemand := Demand(StartState, Index([], map[]))

  datatype Head =
    | Free(sc: State)   // to be handed over; a key too far back has been given up
    | Held              // it may be a key
    | Late              // it had to be a key, and is too far back
    | OutOfSlots        // the index leads to no slot

  function CheckHead(d: Demand): Head {
    var sc, byTok := d.sc, d.ix.byTok;
    if sc.parsed !in byTok then Free(sc)
    else
      var i := byTok[sc.parsed];
      if i >= |sc.keys| then OutOfSlots
      else if sc.keys[i].None? then Free(sc)
      else if KeyValid(sc, sc.keys[i].value) then Held
      else if sc.keys[i].value.required then Late
      else Free(sc.(keys := sc.keys[i := None]))
  }

  /** Two wait behind the head; or nothing else will come. */
  predicate Waits(sc: State) {
    sc.parsed < |sc.tokens| && (sc.parsed + 3 <= |sc.tokens| || Ended(sc))
  }

  function HandHead(d: Demand): Demand
    requires CheckHead(d).Free?
  {
    d.(sc := CheckHead(d).sc.(parsed := d.sc.parsed + 1))
  }

  // ---------- all tokens ----------

  datatype Ending =
    | Complete                        // STREAM-END has been handed over
    | Failed(error: ScanFailure)
    | Panic                           // an index out of range
    | Forever                         // the head is held, and nothing else comes

  /** Where the scanner is when no more tokens come. */
  datatype Scanned = Scanned(sc: State, ending: Ending) {
    function Tokens(): seq<Token> {
      if sc.parsed <= |sc.tokens| then sc.tokens[..sc.parsed] else sc.tokens
    }
  }

  /** Hands tokens over, and fetches others when it must. */
  function DeliverFrom(t: string, d: Demand): Scanned
    requires |d.ix.numbers| == |d.sc.keys|
    decreases Left(t, d.sc.mark), if d.sc.started then 0 else 1, if Ended(d.sc) then 0 else 1,
      if d.sc.parsed <= |d.sc.tokens| then |d.sc.tokens| - d.sc.parsed else 0
  {
    var sc := d.sc;
    if Ended(sc) && sc.parsed >= |sc.tokens| then Scanned(sc, Complete)
    else if Waits(sc) && !CheckHead(d).Held? then
      if CheckHead(d).OutOfSlots? then Scanned(sc, Panic)
      else if CheckHead(d).Late? then Scanned(sc, Failed(MissingColon))
      else DeliverFrom(t, HandHead(d))
    else if Ended(sc) then Scanned(sc, Forever)
    else
      match FetchNext(t, sc)
      case Err(e) => Scanned(sc, Failed(e))
      case Ok(sc1) =>
        FetchAdvances(t, sc);
        KeysCount(t, sc, d.ix);
        DeliverFrom(t, Demand(sc1, IndexNext(t, sc, d.ix)))
  }

  /** What the parser gets of a text. */
  function ScanAll(t: string): Scanned {
    DeliverFrom(t, StartDemand)
  }

  /** The index has a number for each slot. */
  lemma KeysCount(t: string, sc: State, ix: Index)
    requires |ix.numbers| == |sc.keys|
    ensures FetchNext(t, sc).Ok? ==> |IndexNext(t, sc, ix).numbers| == |FetchNext(t, sc).value.keys|
  {
    hide Dispatch, IndexDispatch, Prepared;
    if sc.started {
      UnrollStands(Settled(t, sc), Settled(t, sc).mark.column);
      SameKeys(t, sc);
      DispatchCount(t, Prepared(t, sc), ix);
    }
  }

  lemma SameKeys(t: string, sc: State)
    ensures Prepared(t, sc).keys == sc.keys
  {
    UnrollStands(Settled(t, sc), Settled(t, sc).mark.column);
  }

  lemma DispatchCount(t: string, sc: State, ix: Index)
    requires |ix.numbers| == |sc.keys|
    ensures Dispatch(t, sc).Ok? ==> |IndexDispatch(t, sc, ix).numbers| == |Dispatch(t, sc).value.keys|
  {
    hide Dispatch, ActOf;
    DispatchDid(t, sc);
  }

  // ---------- one step of the run ----------

  lemma DeliverFetches(t: string, d: Demand)
    requires |d.ix.numbers| == |d.sc.keys| && !Ended(d.sc) && (Waits(d.sc) ==> CheckHead(d).Held?)
    ensures match FetchNext(t, d.sc) {
      case Err(e) => DeliverFrom(t, d) == Scanned(d.sc, Failed(e))
      case Ok(sc1) =>
        && |IndexNext(t, d.sc, d.ix).numbers| == |sc1.keys|
        && DeliverFrom(t, d) == DeliverFrom(t, Demand(sc1, IndexNext(t, d.sc, d.ix)))
    }
  {
    hide FetchNext, IndexNext, CheckHead;
    FetchAdvances(t, d.sc);
    KeysCount(t, d.sc, d.ix);
  }

  lemma DeliverHands(t: string, d: Demand)
    requires |d.ix.numbers| == |d.sc.keys| && Waits(d.sc) && CheckHead(d).Free?
    ensures |HandHead(d).ix.numbers| == |HandHead(d).sc.keys|
    ensures DeliverFrom(t, d) == DeliverFrom(t, HandHead(d))
  {
    hide FetchNext, IndexNext;
  }

  lemma DeliverLate(t: string, d: Demand)
    requires |d.ix.numbers| == |d.sc.keys| && Waits(d.sc) && CheckHead(d).Late?
    ensures DeliverFrom(t, d) == Scanned(d.sc, Failed(MissingColon))
  {
    hide FetchNext, IndexNext;
  }

  // ---------- what a fetch does ----------

  /** KEY and BLOCK-MAPPING-START, which may come late and are put in front of other tokens. */
  predicate Starter(token: Token) {
    token.KeyToken? || token.BlockMappingStartToken?
  }

  function Dropped(keys: Slots): Slots {
    if keys == [] then keys else keys[|keys| - 1 := None]
  }

  function WithKey(sc: State): Slots {
    if !sc.keyAllowed || sc.keys == [] then sc.keys
    else
      var required := sc.flow == 0 && sc.indent == sc.mark.column;
      sc.keys[|sc.keys| - 1 := Some(SimpleKey(required, |sc.tokens|, sc.mark))]
  }

  /** Tokens are only put at the end. */
  predicate Extends(sc: State, sc1: State) {
    sc.tokens <= sc1.tokens && |sc1.tokens| > |sc.tokens| && sc1.parsed == sc.parsed
  }

  /** One token is, and it is one that a simple key may begin with. */
  predicate ExtendsOne(sc: State, sc1: State) {
    Extends(sc, sc1) && |sc1.tokens| == |sc.tokens| + 1 && !Starter(sc1.tokens[|sc.tokens|])
  }

  /** Where a token goes that is to stand in front of the n-th. */
  function PutAt(tokens: seq<Token>, n: nat, parsed: nat, token: Token): seq<Token>
    requires n <= |tokens|
  {
    if n < parsed then tokens + [token] else tokens[..n] + [token] + tokens[n..]
  }

  /** KEY, and with it BLOCK-MAPPING-START or not, in front of the n-th token, and VALUE at the end. */
  function Puts(tokens: seq<Token>, n: nat, parsed: nat, both: bool): seq<Token>
    requires n <= |tokens|
  {
    var ts := PutAt(tokens, n, parsed, KeyToken);
    (if both then PutAt(ts, n, parsed, BlockMappingStartToken) else ts) + [ValueToken]
  }

  predicate BeginsMapping(sc: State)
    requires ValidKey(sc)
  {
    sc.flow == 0 && sc.indent < sc.keys[|sc.keys| - 1].value.mark.column
  }

  /** What a ':' leaves behind, for a valid key or not. */
  predicate UsedKey(sc: State, sc1: State) {
    var last := |sc.keys| - 1;
    && sc1.keys == Dropped(sc.keys) && sc1.flow == sc.flow && sc1.parsed == sc.parsed
    && if ValidKey(sc) then
         var n := sc.keys[last].value.number;
         n <= |sc.tokens| ==> sc1.tokens == Puts(sc.tokens, n, sc.parsed, BeginsMapping(sc))
       else Extends(sc, sc1) && (sc.flow > 0 ==> !sc1.keyAllowed)
  }

  predicate ValidKey(sc: State) {
    var last := |sc.keys| - 1;
    sc.keys != [] && sc.keys[last].Some? && KeyValid(sc, sc.keys[last].value)
  }

  predicate Did(act: Act, sc: State, r: Fetched) {
    r.Ok? ==>
      var sc1 := r.value;
      match act
      case Drop => sc1.keys == Dropped(sc.keys) && Extends(sc, sc1) && sc1.flow == sc.flow
      case Save => sc1.keys == WithKey(sc) && ExtendsOne(sc, sc1) && sc1.flow == sc.flow
      case Open => sc1.keys == WithKey(sc) + [None] && ExtendsOne(sc, sc1) && sc1.flow == sc.flow + 1
      case Close =>
        && Extends(sc, sc1)
        && if sc.flow > 0 && sc.keys != [] then sc1.keys == sc.keys[..|sc.keys| - 1] && sc1.flow == sc.flow - 1
           else sc1.keys == Dropped(sc.keys) && sc1.flow == sc.flow
      case Use => UsedKey(sc, sc1)
  }

  lemma RemoveDid(sc: State)
    ensures RemoveKey(sc).Ok? ==> RemoveKey(sc).value == sc.(keys := Dropped(sc.keys))
    ensures SaveKey(sc).Ok? ==> SaveKey(sc).value == sc.(keys := WithKey(sc))
  {
  }

  lemma {:induction false} UnrollExtends(sc: State, column: int)
    ensures var u := UnrollIndent(sc, column); sc.tokens <= u.tokens && u.parsed == sc.parsed
    ensures var u := UnrollIndent(sc, column); u.keys == sc.keys && u.flow == sc.flow
    decreases |sc.indents|
  {
    if !(sc.flow > 0 || sc.indent <= column || sc.indents == []) {
      var last := |sc.indents| - 1;
      UnrollExtends(AppendToken(sc, BlockEndToken).(indent := sc.indents[last], indents := sc.indents[..last]), column);
    }
  }

  lemma ClosedDid(sc: State, token: Token)
    ensures var r := RemoveKey(UnrollIndent(sc, -1));
      r.Ok? ==>
        && r.value.keys == Dropped(sc.keys) && sc.tokens <= r.value.tokens && r.value.parsed == sc.parsed
        && r.value.flow == sc.flow && sc.tokens <= r.value.tokens + [token]
  {
    hide UnrollIndent, RemoveKey;
    UnrollExtends(sc, -1);
    RemoveDid(UnrollIndent(sc, -1));
  }

  lemma ClosingDid(t: string, sc: State, token: Token)
    ensures Did(Drop, sc, FetchStreamEnd(sc)) && Did(Drop, sc, FetchDocumentIndicator(sc, token))
    ensures sc.mark.index < |t| ==> Did(Drop, sc, FetchDirective(t, sc))
  {
    hide Did, UnrollIndent, RemoveKey;
    EndDid(sc);
    IndicatorDid(sc, token);
    if sc.mark.index < |t| { DirectiveDid(t, sc); }
  }

  lemma EndDid(sc: State)
    ensures Did(Drop, sc, FetchStreamEnd(sc))
  {
    hide UnrollIndent, RemoveKey;
    var m := if sc.mark.column != 0 then Mark(sc.mark.index, sc.mark.line + 1, 0) else sc.mark;
    ClosedDid(sc.(mark := m), StreamEndToken);
  }

  lemma IndicatorDid(sc: State, token: Token)
    ensures Did(Drop, sc, FetchDocumentIndicator(sc, token))
  {
    hide UnrollIndent, RemoveKey;
    ClosedDid(sc, token);
  }

  lemma DirectiveDid(t: string, sc: State)
    requires sc.mark.index < |t|
    ensures Did(Drop, sc, FetchDirective(t, sc))
  {
    hide UnrollIndent, RemoveKey, NameScan.ScanDirective;
    if NameScan.ScanDirective(t, sc.mark).Ok? {
      ClosedDid(sc, NameScan.ScanDirective(t, sc.mark).value.0);
    }
  }

  lemma FlowDid(sc: State, token: Token)
    requires !Starter(token)
    ensures Did(Open, sc, FetchFlowStart(sc, token)) && Did(Close, sc, FetchFlowEnd(sc, token))
    ensures Did(Drop, sc, FetchFlowEntry(sc))
  {
    hide RemoveKey, SaveKey;
    RemoveDid(sc);
    if sc.keys != [] { assert Dropped(sc.keys)[..|sc.keys| - 1] == sc.keys[..|sc.keys| - 1]; }
  }

  lemma RollAppends(sc: State, column: int, token: Token)
    ensures var r := RollIndent(sc, column, -1, token);
      r.Ok? ==> sc.tokens <= r.value.tokens && r.value.keys == sc.keys && r.value.flow == sc.flow
                && r.value.parsed == sc.parsed
  {
  }

  lemma BlockDid(sc: State)
    ensures Did(Drop, sc, FetchBlockEntry(sc)) && Did(Drop, sc, FetchKey(sc))
  {
    hide RollIndent, RemoveKey;
    RollAppends(sc, sc.mark.column, BlockSequenceStartToken);
    RollAppends(sc, sc.mark.column, BlockMappingStartToken);
    var a := RollIndent(sc, sc.mark.column, -1, BlockSequenceStartToken);
    var b := RollIndent(sc, sc.mark.column, -1, BlockMappingStartToken);
    if a.Ok? { RemoveDid(a.value); }
    if b.Ok? { RemoveDid(b.value); }
  }

  lemma RollPuts(sc: State, column: int, n: nat, token: Token)
    requires n <= |sc.tokens|
    ensures var r := RollIndent(sc, column, n, token);
      r.Ok? ==>
        && r.value.keys == sc.keys && r.value.flow == sc.flow && r.value.parsed == sc.parsed
        && r.value.tokens == if sc.flow == 0 && sc.indent < column then PutAt(sc.tokens, n, sc.parsed, token)
                             else sc.tokens
  {
  }

  lemma ValueDid(sc: State)
    ensures Did(Use, sc, FetchValue(sc))
  {
    hide RollIndent, KeyValid;
    var last := |sc.keys| - 1;
    if ValidKey(sc) {
      var key := sc.keys[last].value;
      if key.number <= |sc.tokens| {
        var put := InsertToken(sc, key.number - sc.parsed, KeyToken);
        RollPuts(put, key.mark.column, key.number, BlockMappingStartToken);
      }
      RollKeys(InsertToken(sc, key.number - sc.parsed, KeyToken), key.mark.column, key.number, BlockMappingStartToken);
    } else {
      var sc0 := if sc.keys == [] then sc else sc.(keys := sc.keys[last := None]);
      RollAppends(sc0, sc.mark.column, BlockMappingStartToken);
    }
  }

  lemma RollKeys(sc: State, column: int, number: int, token: Token)
    ensures var r := RollIndent(sc, column, number, token);
      r.Ok? ==> r.value.keys == sc.keys && r.value.flow == sc.flow && r.value.parsed == sc.parsed
  {
  }

  lemma ScalarDid(t: string, sc: State, single: bool, alias: bool)
    ensures Did(Save, sc, FetchFlowScalar(t, sc, single)) && Did(Save, sc, FetchPlainScalar(t, sc))
    ensures sc.mark.index < |t| ==> Did(Save, sc, FetchAnchor(t, sc, alias)) && Did(Save, sc, FetchTag(t, sc))
  {
    hide SaveKey, ScanFlow, ScanPlain, NameScan.ScanAnchor, NameScan.ScanTag;
    RemoveDid(sc);
  }

  lemma DispatchDid(t: string, sc: State)
    ensures Did(ActOf(t, sc), sc, Dispatch(t, sc))
  {
    hide Did, FetchStreamEnd, FetchDocumentIndicator, FetchFlowStart, FetchFlowEnd, FetchFlowEntry, FetchBlockEntry,
      FetchKey, FetchValue, FetchFlowScalar, FetchPlainScalar, FetchAnchor, FetchTag, FetchDirective, StartsPlain,
      DocIndicatorAt;
    NothingDid(sc);
    ClosingDid(t, sc, DocumentStartToken);
    ClosingDid(t, sc, DocumentEndToken);
    FlowDid(sc, FlowSequenceStartToken);
    FlowDid(sc, FlowMappingStartToken);
    FlowDid(sc, FlowSequenceEndToken);
    FlowDid(sc, FlowMappingEndToken);
    BlockDid(sc);
    ValueDid(sc);
    ScalarDid(t, sc, true, true);
    ScalarDid(t, sc, false, false);
  }

  lemma NothingDid(sc: State)
    ensures forall act, e :: Did(act, sc, Err(e))
  {
  }

  lemma KeptParsed(act: Act, sc: State, sc1: State)
    requires Did(act, sc, Ok(sc1))
    ensures sc1.parsed == sc.parsed
  {
  }

  lemma FetchKeepsParsed(t: string, sc: State)
    ensures var r := FetchNext(t, sc); r.Ok? ==> r.value.parsed == sc.parsed
  {
    hide UnrollIndent, Settle, Dispatch, ActOf, Did;
    if sc.started {
      var p := Prepared(t, sc);
      UnrollExtends(Settled(t, sc), Settled(t, sc).mark.column);
      DispatchDid(t, p);
      if Dispatch(t, p).Ok? { KeptParsed(ActOf(t, p), p, Dispatch(t, p).value); }
    }
  }
}
