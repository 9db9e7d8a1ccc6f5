/**
 The scanner on demand: tokens are handed to the parser while others are still to be fetched.
 It makes no difference when, as long as no token that may turn out to be a simple key is handed
 over before that is settled; and a printed document never asks for more.
 */
module OnDemand {
  import opened Options
  import opened Tokens
  import opened Layout
  import opened LayoutTokens
  import opened Scanner
  import opened ScanSteps
  import opened ScanStream
  import opened ScanInvariant
  import ScanToEnd
  import NameScan

  function HandedOver(r: Fetched, k: nat): Fetched {
    match r
    case Err(e) => Err(e)
    case Ok(sc) => Ok(sc.(parsed := k))
  }

  lemma {:induction false} UnrollHanded(sc: State, column: int, k: nat)
    ensures UnrollIndent(sc.(parsed := k), column) == UnrollIndent(sc, column).(parsed := k)
    ensures |UnrollIndent(sc, column).tokens| >= |sc.tokens|
    decreases |sc.indents|
  {
    if !(sc.flow > 0 || sc.indent <= column || sc.indents == []) {
      var last := |sc.indents| - 1;
      var closed := AppendToken(sc, BlockEndToken).(indent := sc.indents[last], indents := sc.indents[..last]);
      UnrollHanded(closed, column, k);
    }
  }

  lemma PrepareHanded(t: string, sc: State, k: nat)
    ensures Prepared(t, sc.(parsed := k)) == Prepared(t, sc).(parsed := k)
    ensures |Prepared(t, sc).tokens| >= |sc.tokens|
  {
    UnrollHanded(Settled(t, sc), Settled(t, sc).mark.column, k);
  }

  /** Tokens put behind the k-th stand in the same place, however many were handed over. */
  lemma RollHanded(sc: State, column: int, number: int, token: Token, k: nat)
    requires sc.parsed == 0 && (number < 0 || k <= number)
    ensures RollIndent(sc.(parsed := k), column, number, token) == HandedOver(RollIndent(sc, column, number, token), k)
  {
  }

  /** If a ':' comes next, the key it belongs to has not been handed over. */
  ghost predicate KeyAhead(t: string, sc: State, k: nat) {
    var last := |sc.keys| - 1;
    ValueNext(t, sc) && sc.keys != [] && sc.keys[last].Some? && KeyValid(sc, sc.keys[last].value) ==>
      sc.keys[last].value.number >= k
  }

  lemma ValueHanded(t: string, sc: State, k: nat)
    requires sc.parsed == 0 && KeyAhead(t, sc, k) && ValueNext(t, sc)
    ensures FetchValue(sc.(parsed := k)) == HandedOver(FetchValue(sc), k)
  {
    hide RollIndent;
    var last := |sc.keys| - 1;
    if sc.keys != [] && sc.keys[last].Some? && KeyValid(sc, sc.keys[last].value) {
      var key := sc.keys[last].value;
      RollHanded(InsertToken(sc, key.number, KeyToken), key.mark.column, key.number, BlockMappingStartToken, k);
    } else {
      var sc0 := if sc.keys == [] then sc else sc.(keys := sc.keys[last := None]);
      RollHanded(sc0, sc.mark.column, -1, BlockMappingStartToken, k);
    }
  }

  lemma ScalarHanded(t: string, sc: State, single: bool, k: nat)
    ensures FetchFlowScalar(t, sc.(parsed := k), single) == HandedOver(FetchFlowScalar(t, sc, single), k)
    ensures FetchPlainScalar(t, sc.(parsed := k)) == HandedOver(FetchPlainScalar(t, sc), k)
  {
  }

  lemma BlockHanded(sc: State, k: nat)
    requires sc.parsed == 0
    ensures FetchBlockEntry(sc.(parsed := k)) == HandedOver(FetchBlockEntry(sc), k)
    ensures FetchKey(sc.(parsed := k)) == HandedOver(FetchKey(sc), k)
  {
    hide RollIndent;
    RollHanded(sc, sc.mark.column, -1, BlockSequenceStartToken, k);
    RollHanded(sc, sc.mark.column, -1, BlockMappingStartToken, k);
  }

  lemma StreamEndHanded(sc: State, k: nat)
    ensures FetchStreamEnd(sc.(parsed := k)) == HandedOver(FetchStreamEnd(sc), k)
  {
    hide UnrollIndent;
    var m := if sc.mark.column != 0 then Chars.Mark(sc.mark.index, sc.mark.line + 1, 0) else sc.mark;
    UnrollHanded(sc.(mark := m), -1, k);
  }

  lemma IndicatorHanded(sc: State, token: Token, k: nat)
    ensures FetchDocumentIndicator(sc.(parsed := k), token) == HandedOver(FetchDocumentIndicator(sc, token), k)
  {
    hide UnrollIndent;
    UnrollHanded(sc, -1, k);
  }

  lemma NameHanded(t: string, sc: State, alias: bool, k: nat)
    requires sc.mark.index < |t|
    ensures FetchAnchor(t, sc.(parsed := k), alias) == HandedOver(FetchAnchor(t, sc, alias), k)
    ensures FetchTag(t, sc.(parsed := k)) == HandedOver(FetchTag(t, sc), k)
    ensures FetchDirective(t, sc.(parsed := k)) == HandedOver(FetchDirective(t, sc), k)
  {
    hide UnrollIndent, NameScan.ScanAnchor, NameScan.ScanTag, NameScan.ScanDirective;
    UnrollHanded(sc, -1, k);
  }

  lemma FlowStartHanded(sc: State, token: Token, k: nat)
    ensures FetchFlowStart(sc.(parsed := k), token) == HandedOver(FetchFlowStart(sc, token), k)
  {
  }

  lemma FlowEndHanded(sc: State, token: Token, k: nat)
    ensures FetchFlowEnd(sc.(parsed := k), token) == HandedOver(FetchFlowEnd(sc, token), k)
  {
  }

  lemma FlowEntryHanded(sc: State, k: nat)
    ensures FetchFlowEntry(sc.(parsed := k)) == HandedOver(FetchFlowEntry(sc), k)
  {
  }

  lemma DispatchHanded(t: string, sc: State, k: nat)
    requires sc.parsed == 0 && KeyAhead(t, sc, k)
    ensures Dispatch(t, sc.(parsed := k)) == HandedOver(Dispatch(t, sc), k)
  {
    hide FetchStreamEnd, FetchDocumentIndicator, FetchFlowStart, FetchFlowEnd, FetchFlowEntry, FetchBlockEntry,
      FetchKey, FetchValue, FetchFlowScalar, FetchPlainScalar, FetchAnchor, FetchTag, FetchDirective, StartsPlain;
    var c := Chars.Ch(t, sc.mark.index);
    if c == Chars.NUL {
      StreamEndHanded(sc, k);
    } else if c == '%' || c == '&' || c == '*' || c == '!' {
      NameHanded(t, sc, c == '*', k);
      ScalarHanded(t, sc, true, k);
    } else if Chars.DocIndicatorAt(t, sc.mark) {
      IndicatorHanded(sc, if c == '-' then DocumentStartToken else DocumentEndToken, k);
    } else if c == '[' || c == '{' {
      FlowStartHanded(sc, if c == '[' then FlowSequenceStartToken else FlowMappingStartToken, k);
    } else if c == ']' || c == '}' {
      FlowEndHanded(sc, if c == ']' then FlowSequenceEndToken else FlowMappingEndToken, k);
    } else if c == ',' {
      FlowEntryHanded(sc, k);
    } else if ValueNext(t, sc) {
      ValueHanded(t, sc, k);
    } else {
      BlockHanded(sc, k);
      ScalarHanded(t, sc, c == '\'', k);
    }
  }

  /** A fetch does the same, however many tokens in front of a pending key were handed over. */
  lemma NextHanded(t: string, sc: State, k: nat)
    requires sc.parsed == 0 && (sc.started ==> KeyAhead(t, Prepared(t, sc), k))
    ensures FetchNext(t, sc.(parsed := k)) == HandedOver(FetchNext(t, sc), k)
  {
    hide Dispatch, Prepared;
    if sc.started {
      PrepareHanded(t, sc, k);
      PreparedHas(t, sc);
      DispatchHanded(t, Prepared(t, sc), k);
    }
  }

  lemma FetchHanded(t: string, sc: State, k: nat)
    requires sc.parsed == 0 && FetchClose(t, sc).Ok? && (k == 0 || k + 2 <= |sc.tokens|)
    ensures FetchNext(t, sc.(parsed := k)) == HandedOver(FetchClose(t, sc), k)
  {
    hide Dispatch, Prepared, ValueNext;
    if sc.started {
      PrepareHanded(t, sc, k);
      assert KeyAhead(t, Prepared(t, sc), k);
    }
    NextHanded(t, sc, k);
  }

  lemma {:induction false} UnrollParsed(sc: State, column: int)
    ensures UnrollIndent(sc, column).parsed == sc.parsed
    decreases |sc.indents|
  {
    if !(sc.flow > 0 || sc.indent <= column || sc.indents == []) {
      var last := |sc.indents| - 1;
      UnrollParsed(AppendToken(sc, BlockEndToken).(indent := sc.indents[last], indents := sc.indents[..last]), column);
    }
  }

  lemma PreparedHas(t: string, sc: State)
    ensures Prepared(t, sc).parsed == sc.parsed
  {
    UnrollParsed(Settled(t, sc), Settled(t, sc).mark.column);
  }

  /** Fetches one token for each entry; before it, so many tokens in all have been handed over. */
  function FetchHanding(t: string, sc: State, handed: seq<nat>): Fetched
    decreases |handed|
  {
    if handed == [] then Ok(sc)
    else
      match FetchNext(t, sc.(parsed := handed[0]))
      case Err(e) => Err(e)
      case Ok(sc1) => FetchHanding(t, sc1, handed[1..])
  }

  /** A token is handed over only while at least two others stay queued behind it. */
  predicate KeepsTwo(t: string, sc: State, handed: seq<nat>)
    decreases |handed|
  {
    handed == [] || (
      && (handed[0] == 0 || handed[0] + 2 <= |sc.tokens|)
      && var r := FetchNext(t, sc.(parsed := handed[0]));
         r.Ok? ==> KeepsTwo(t, r.value, handed[1..]))
  }

  lemma {:induction false} RunHanded(t: string, sc: State, handed: seq<nat>, k: nat)
    requires sc.parsed == 0 && Run(Fetcher(t), sc, |handed|).Ok? && KeepsTwo(t, sc.(parsed := k), handed)
    ensures FetchHanding(t, sc.(parsed := k), handed).Ok?
    ensures FetchHanding(t, sc.(parsed := k), handed).value.tokens == Run(Fetcher(t), sc, |handed|).value.tokens
    decreases |handed|
  {
    hide FetchNext, FetchClose;
    if handed != [] {
      var h := handed[0];
      assert Fetcher(t)(sc) == FetchClose(t, sc);
      FetchHanded(t, sc, h);
      FetchHanded(t, sc, 0);
      assert sc.(parsed := k).(parsed := h) == sc.(parsed := h);
      var sc1 := FetchClose(t, sc).value;
      assert sc1.parsed == 0 by { assert sc.(parsed := 0) == sc; ZeroStays(t, sc); }
      RunHanded(t, sc1, handed[1..], h);
    }
  }

  lemma ZeroStays(t: string, sc: State)
    requires sc.parsed == 0 && FetchClose(t, sc).Ok?
    ensures FetchClose(t, sc).value.parsed == 0
  {
    FetchHanded(t, sc, 0);
    assert sc.(parsed := 0) == sc;
  }

  /**
   Whenever the parser takes its tokens, as long as the scanner keeps two more in its queue,
   the tokens of a printed document are the same.
   */
  lemma DocumentReadOnDemand(tree: Tree, env: Env, handed: seq<nat>)
    requires ValidEnv(env) && ValidTree(tree) && Depth(tree) <= MAX_INDENTS
    requires |handed| == DocumentFetches(tree, env)
    requires KeepsTwo(EmitDocument(tree, env).out, StartState, handed)
    ensures var r := FetchHanding(EmitDocument(tree, env).out, StartState, handed);
      r.Ok? && r.value.tokens == DocumentTokens(tree, env)
  {
    hide FetchNext, FetchMany, EmitDocument, DocumentTokens, DocumentFetches, Depth, Run, FetchHanding, KeepsTwo;
    DocumentRead(tree, env);
    assert StartState.(parsed := 0) == StartState;
    RunHanded(EmitDocument(tree, env).out, StartState, handed, 0);
  }

  // ---------- the balance, whatever is handed over when ----------

  /** No more tokens are handed over than there are. */
  predicate Within(t: string, sc: State, handed: seq<nat>)
    decreases |handed|
  {
    handed == [] || (
      && handed[0] <= |sc.tokens|
      && var r := FetchNext(t, sc.(parsed := handed[0]));
         r.Ok? ==> Within(t, r.value, handed[1..]))
  }

  /** Block starts and block ends, and the stack of the blocks that are open. */
  ghost predicate Balanced(sc: State) {
    && Rising(sc.indents + [sc.indent])
    && Balance(sc.tokens) == |sc.indents|
    && forall k :: 0 <= k <= |sc.tokens| ==> Balance(sc.tokens[..k]) >= 0
  }

  lemma RunningIsBalanced(sc: State)
    requires Running(sc)
    ensures Balanced(sc)
  {
    forall k | 0 <= k <= |sc.tokens| ensures Balance(sc.tokens[..k]) >= 0 { PrefixBalance(sc.tokens, k); }
  }

  lemma InvariantHanded(sc: State, k: nat)
    requires Invariant(sc) && k <= |sc.tokens|
    ensures Invariant(sc.(parsed := k))
  {
    hide NeverNegative, Balance, Rising;
    if !sc.started { assert sc.(parsed := k) == sc; }
  }

  /**
   On any text, whatever was handed over before each fetch, and so also where a token is put at
   the end because the one it belongs to has gone: the indentation stack rises strictly from -1,
   no prefix of the tokens ends more blocks than it starts, and the starts exceed the ends by
   just the depth of the stack; behind the end of the text, outside flow collections, by nothing.
   */
  lemma {:induction false} AnyScheduleBalances(t: string, sc: State, handed: seq<nat>)
    requires Invariant(sc) && Within(t, sc, handed) && (ScanToEnd.Ended(sc) ==> ScanToEnd.AtTheEnd(t, sc))
    ensures FetchHanding(t, sc, handed).Ok? ==>
      var end := FetchHanding(t, sc, handed).value;
      && Invariant(end) && (end.started ==> Balanced(end))
      && (ScanToEnd.Ended(end) && end.flow == 0 ==> end.indents == [] && Balance(end.tokens) == 0)
    decreases |handed|
  {
    hide FetchNext, Invariant, ScanToEnd.AtTheEnd, ScanToEnd.Ended;
    if handed == [] {
      if sc.started { RunningIsBalanced(sc); }
      if ScanToEnd.Ended(sc) { ScanToEnd.EndBalances(t, sc); }
    } else {
      var h := sc.(parsed := handed[0]);
      InvariantHanded(sc, handed[0]);
      FetchKeeps(t, h);
      ScanToEnd.FetchAdvances(t, h);
      if FetchNext(t, h).Ok? { AnyScheduleBalances(t, FetchNext(t, h).value, handed[1..]); }
    }
  }

  // ---------- any text ----------

  /** No token that may be a simple key is among those handed over. */
  predicate KeysKept(sc: State, k: nat) {
    forall i :: 0 <= i < |sc.keys| && sc.keys[i].Some? ==> sc.keys[i].value.number >= k
  }

  predicate Orderly(t: string, sc: State, handed: seq<nat>)
    decreases |handed|
  {
    handed == [] || (
      && KeysKept(sc, handed[0])
      && var r := FetchNext(t, sc.(parsed := handed[0]));
         r.Ok? ==> Orderly(t, r.value, handed[1..]))
  }

  lemma {:induction false} UnrollKeys(sc: State, column: int)
    ensures UnrollIndent(sc, column).keys == sc.keys
    decreases |sc.indents|
  {
    if !(sc.flow > 0 || sc.indent <= column || sc.indents == []) {
      var last := |sc.indents| - 1;
      UnrollKeys(AppendToken(sc, BlockEndToken).(indent := sc.indents[last], indents := sc.indents[..last]), column);
    }
  }

  lemma KeptIsAhead(t: string, sc: State, k: nat)
    requires KeysKept(sc, k)
    ensures KeyAhead(t, Prepared(t, sc), k)
  {
    hide UnrollIndent, Settle, ValueNext;
    UnrollKeys(Settled(t, sc), Settled(t, sc).mark.column);
  }

  lemma ParsedStays(t: string, sc: State)
    requires sc.parsed == 0
    ensures FetchNext(t, sc).Ok? ==> FetchNext(t, sc).value.parsed == 0
  {
    hide FetchNext, Prepared, ValueNext;
    NextHanded(t, sc, 0);
    assert sc.(parsed := 0) == sc;
  }

  /** So many tokens have been handed over, and the rest of the run is that of any other schedule. */
  lemma {:induction false} ManyHanded(t: string, sc: State, handed: seq<nat>, k: nat)
    requires sc.parsed == 0 && Orderly(t, sc.(parsed := k), handed)
    ensures match FetchMany(t, sc, |handed|) {
      case Err(e) => FetchHanding(t, sc.(parsed := k), handed) == Err(e)
      case Ok(end) =>
        && FetchHanding(t, sc.(parsed := k), handed).Ok?
        && FetchHanding(t, sc.(parsed := k), handed).value.(parsed := 0) == end.(parsed := 0)
    }
    decreases |handed|
  {
    hide FetchNext, Prepared;
    if handed != [] {
      var h := handed[0];
      assert sc.(parsed := k).(parsed := h) == sc.(parsed := h);
      KeptIsAhead(t, sc, h);
      NextHanded(t, sc, h);
      ParsedStays(t, sc);
      if FetchNext(t, sc).Ok? { ManyHanded(t, FetchNext(t, sc).value, handed[1..], h); }
    }
  }

  /**
   On any text: however the parser takes its tokens, as long as none that may still be a simple
   key is taken, they are those fetched without handing any over, with the same errors.
   */
  lemma TextReadOnDemand(t: string, handed: seq<nat>)
    requires Orderly(t, StartState, handed)
    ensures match FetchMany(t, StartState, |handed|) {
      case Err(e) => FetchHanding(t, StartState, handed) == Err(e)
      case Ok(end) =>
        FetchHanding(t, StartState, handed).Ok? && FetchHanding(t, StartState, handed).value.tokens == end.tokens
    }
  {
    hide FetchNext, FetchMany, FetchHanding, Orderly;
    assert StartState.(parsed := 0) == StartState;
    ManyHanded(t, StartState, handed, 0);
  }

  // ---------- keys stay ahead ----------

  predicate StillKept(r: Fetched, k: nat) {
    r.Ok? ==> KeysKept(r.value, k)
  }

  /** And the fetch gives a token at least. */
  predicate GoesOn(sc: State, r: Fetched, k: nat) {
    StillKept(r, k) && (r.Ok? ==> |r.value.tokens| > |sc.tokens|)
  }

  lemma SaveKept(sc: State, k: nat)
    requires KeysKept(sc, k) && k <= |sc.tokens|
    ensures StillKept(SaveKey(sc), k) && StillKept(RemoveKey(sc), k)
    ensures SaveKey(sc).Ok? ==> SaveKey(sc).value.tokens == sc.tokens
    ensures RemoveKey(sc).Ok? ==> RemoveKey(sc).value.tokens == sc.tokens
  {
  }

  lemma RollKept(sc: State, column: int, number: int, token: Token, k: nat)
    requires KeysKept(sc, k)
    ensures var r := RollIndent(sc, column, number, token);
      StillKept(r, k) && (r.Ok? ==> r.value.keys == sc.keys && |r.value.tokens| >= |sc.tokens|)
  {
  }

  lemma ScalarsKept(t: string, sc: State, single: bool, alias: bool, k: nat)
    requires KeysKept(sc, k) && k <= |sc.tokens|
    ensures GoesOn(sc, FetchFlowScalar(t, sc, single), k) && GoesOn(sc, FetchPlainScalar(t, sc), k)
    ensures sc.mark.index < |t| ==>
      GoesOn(sc, FetchAnchor(t, sc, alias), k) && GoesOn(sc, FetchTag(t, sc), k)
  {
    hide SaveKey;
    SaveKept(sc, k);
  }

  lemma ClosedKept(sc: State, k: nat)
    requires KeysKept(sc, k) && k <= |sc.tokens|
    ensures StillKept(RemoveKey(UnrollIndent(sc, -1)), k)
    ensures var r := RemoveKey(UnrollIndent(sc, -1)); r.Ok? ==> |r.value.tokens| >= |sc.tokens|
  {
    hide UnrollIndent, RemoveKey;
    UnrollKeys(sc, -1);
    UnrollHanded(sc, -1, 0);
    SaveKept(UnrollIndent(sc, -1), k);
  }

  lemma ClosingKept(t: string, sc: State, token: Token, k: nat)
    requires KeysKept(sc, k) && k <= |sc.tokens|
    ensures GoesOn(sc, FetchStreamEnd(sc), k) && GoesOn(sc, FetchDocumentIndicator(sc, token), k)
    ensures sc.mark.index < |t| ==> GoesOn(sc, FetchDirective(t, sc), k)
  {
    hide UnrollIndent, RemoveKey, NameScan.ScanDirective;
    ClosedKept(sc.(mark := if sc.mark.column != 0 then Chars.Mark(sc.mark.index, sc.mark.line + 1, 0) else sc.mark), k);
    ClosedKept(sc, k);
  }

  lemma FlowsKept(sc: State, token: Token, k: nat)
    requires KeysKept(sc, k) && k <= |sc.tokens|
    ensures GoesOn(sc, FetchFlowStart(sc, token), k) && GoesOn(sc, FetchFlowEnd(sc, token), k)
    ensures GoesOn(sc, FetchFlowEntry(sc), k)
  {
    hide SaveKey, RemoveKey;
    SaveKept(sc, k);
  }

  lemma BlocksKept(sc: State, k: nat)
    requires KeysKept(sc, k) && k <= |sc.tokens|
    ensures GoesOn(sc, FetchBlockEntry(sc), k) && GoesOn(sc, FetchKey(sc), k)
  {
    hide RollIndent, RemoveKey;
    RollKept(sc, sc.mark.column, -1, BlockSequenceStartToken, k);
    RollKept(sc, sc.mark.column, -1, BlockMappingStartToken, k);
    var a := RollIndent(sc, sc.mark.column, -1, BlockSequenceStartToken);
    var b := RollIndent(sc, sc.mark.column, -1, BlockMappingStartToken);
    if a.Ok? { SaveKept(a.value, k); }
    if b.Ok? { SaveKept(b.value, k); }
  }

  lemma ValueKept(sc: State, k: nat)
    requires KeysKept(sc, k) && k <= |sc.tokens|
    ensures GoesOn(sc, FetchValue(sc), k)
  {
    hide RollIndent, InsertToken;
    var last := |sc.keys| - 1;
    if sc.keys != [] && sc.keys[last].Some? && KeyValid(sc, sc.keys[last].value) {
      var key := sc.keys[last].value;
      var sc1 := InsertToken(sc, key.number - sc.parsed, KeyToken);
      assert sc1.keys == sc.keys && |sc1.tokens| > |sc.tokens| by {
        InsertedKeys(sc, key.number - sc.parsed, KeyToken);
      }
      RollKept(sc1, key.mark.column, key.number, BlockMappingStartToken, k);
    } else {
      var sc0 := if sc.keys == [] then sc else sc.(keys := sc.keys[last := None]);
      RollKept(sc0, sc.mark.column, -1, BlockMappingStartToken, k);
    }
  }

  lemma InsertedKeys(sc: State, position: int, token: Token)
    ensures InsertToken(sc, position, token).keys == sc.keys
    ensures |InsertToken(sc, position, token).tokens| == |sc.tokens| + 1
  {
  }

  lemma DispatchKept(t: string, sc: State, k: nat)
    requires KeysKept(sc, k) && k <= |sc.tokens|
    ensures GoesOn(sc, Dispatch(t, sc), k)
  {
    hide KeysKept, FetchStreamEnd, FetchDocumentIndicator, FetchFlowStart, FetchFlowEnd, FetchFlowEntry,
      FetchBlockEntry, FetchKey, FetchValue, FetchFlowScalar, FetchPlainScalar, FetchAnchor, FetchTag, FetchDirective,
      StartsPlain, Chars.DocIndicatorAt;
    ScalarsKept(t, sc, true, true, k);
    ScalarsKept(t, sc, false, false, k);
    ClosingKept(t, sc, DocumentStartToken, k);
    ClosingKept(t, sc, DocumentEndToken, k);
    FlowsKept(sc, FlowSequenceStartToken, k);
    FlowsKept(sc, FlowMappingStartToken, k);
    FlowsKept(sc, FlowSequenceEndToken, k);
    FlowsKept(sc, FlowMappingEndToken, k);
    BlocksKept(sc, k);
    ValueKept(sc, k);
  }

  /** A fetch saves no key in front of those that were handed over. */
  lemma FetchKept(t: string, sc: State, k: nat)
    requires KeysKept(sc, k) && k <= |sc.tokens|
    ensures GoesOn(sc, FetchNext(t, sc), k)
  {
    hide Dispatch, Settle, UnrollIndent;
    if sc.started {
      UnrollKeys(Settled(t, sc), Settled(t, sc).mark.column);
      UnrollHanded(Settled(t, sc), Settled(t, sc).mark.column, 0);
      DispatchKept(t, Prepared(t, sc), k);
    }
  }
}
