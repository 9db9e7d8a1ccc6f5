/**
 The scanner's object beside the machine that says what it hands over: at the end of the text the
 object may have more STREAM-END tokens in its queue, and is otherwise where the machine is.
 */
module Tracking {
  import opened Chars
  import opened ScalarScan
  import opened Options
  import opened Tokens
  import opened Scanner
  import opened ScanInvariant
  import opened ScanToEnd
  import opened DemandScan
  import opened DemandSafety

  ghost predicate Tracks(v: State, d: Demand) {
    && v == d.sc.(tokens := v.tokens) && d.sc.tokens <= v.tokens
    && (v.tokens == d.sc.tokens || Ended(d.sc))
  }

  /** Some token has not been handed over, or may come. */
  predicate MoreToCome(sc: State) {
    !(Ended(sc) && sc.parsed >= |sc.tokens|)
  }

  /** The object with state v, the machine at d, and nothing wrong with either. */
  ghost predicate Following(t: string, v: State, d: Demand) {
    Good(t, d) && |d.ix.numbers| == |d.sc.keys| && Invariant(v) && Tracks(v, d) && MoreToCome(d.sc)
  }

  /** The machine after a fetch of the object's. */
  ghost function AfterFetch(t: string, v: State, d: Demand): Demand
    requires |d.ix.numbers| == |v.keys| && FetchNext(t, v).Ok?
  {
    if Ended(d.sc) then d else Demand(FetchNext(t, v).value, IndexNext(t, v, d.ix))
  }

  /** At the end one more fetch puts one more STREAM-END into the queue. */
  lemma ExtraEnd(t: string, v: State, d: Demand)
    requires Good(t, d) && Tracks(v, d) && Ended(d.sc) && Ended(v) && |d.ix.numbers| == |v.keys|
    ensures FetchNext(t, v) == Ok(AppendToken(v, StreamEndToken)) && IndexNext(t, v, d.ix) == d.ix
    ensures Tracks(AppendToken(v, StreamEndToken), d)
  {
    hide FetchNext;
    assert AtTheEnd(t, v);
    EndAgain(t, v);
    assert Settle(t, v.mark, v.flow, v.keyAllowed) == (v.mark, v.keyAllowed);
    assert Settled(t, v) == v && Prepared(t, v) == v;
  }

  ghost predicate FollowsOn(t: string, v1: State, d: Demand, d1: Demand)
    requires |d.ix.numbers| == |d.sc.keys|
  {
    && |d1.ix.numbers| == |d1.sc.keys| && (Invariant(v1) ==> Following(t, v1, d1)) && (Ended(d1.sc) ==> Ended(v1))
    && v1.parsed == d.sc.parsed && DeliverFrom(t, d1) == DeliverFrom(t, d)
  }

  lemma FollowsFetch(t: string, v: State, d: Demand)
    requires Following(t, v, d) && (Ended(d.sc) ==> Ended(v)) && (v.parsed + 3 <= |v.tokens| ==> CheckHead(d).Held?)
    ensures |d.ix.numbers| == |v.keys|
    ensures FetchNext(t, v).Err? ==>
      DeliverFrom(t, d) == Scanned(d.sc, Failed(FetchNext(t, v).error)) && v == d.sc
    ensures FetchNext(t, v).Ok? ==> FollowsOn(t, FetchNext(t, v).value, d, AfterFetch(t, v, d))
    ensures FetchNext(t, v).Ok? ==> AfterFetch(t, v, d).ix == IndexNext(t, v, d.ix)
  {
    hide FetchNext, IndexNext, CheckHead, Good, Invariant, DeliverFrom;
    if Ended(d.sc) {
      ExtraEnd(t, v, d);
    } else {
      assert v == d.sc;
      DeliverFetches(t, d);
      FetchKeepsParsed(t, v);
      if FetchNext(t, v).Ok? {
        FetchGood(t, d);
        FetchAdds(t, v);
      }
    }
  }

  /** A fetch gives at least one token. */
  lemma FetchAdds(t: string, sc: State)
    requires Invariant(sc)
    ensures FetchNext(t, sc).Ok? ==> FetchNext(t, sc).value.parsed < |FetchNext(t, sc).value.tokens|
  {
    hide Dispatch, Prepared, Balance, NeverNegative, Rising;
    FetchKeepsParsed(t, sc);
    if sc.started {
      BetweenTokens(t, sc);
      DispatchDid(t, Prepared(t, sc));
    }
  }

  lemma FetchLeaves(t: string, v: State, d: Demand)
    requires Following(t, v, d) && |d.ix.numbers| == |v.keys| && FetchNext(t, v).Ok? && !Ended(d.sc)
    ensures var s := AfterFetch(t, v, d).sc;
      || Left(t, s.mark) < Left(t, d.sc.mark)
      || (Left(t, s.mark) == Left(t, d.sc.mark) && s.started && (!d.sc.started || Ended(s)))
  {
    hide FetchNext, IndexNext, AtTheEnd;
    FetchAdvances(t, v);
  }

  lemma FollowsHeld(t: string, v: State, d: Demand)
    requires Following(t, v, d) && CheckHead(d).Held?
    ensures !Ended(d.sc)
  {
    if Ended(d.sc) { NothingHeldAtEnd(t, d); }
  }

  /** Three tokens wait in the object: then the machine's head may go as well. */
  lemma FollowsHead(t: string, v: State, d: Demand)
    requires Following(t, v, d) && v.parsed + 3 <= |v.tokens|
    ensures Waits(d.sc) && !CheckHead(d).OutOfSlots?
    ensures CheckHead(d).Late? ==> DeliverFrom(t, d) == Scanned(d.sc, Failed(MissingColon))
  {
    hide AtTheEnd, Invariant;
    HeadIsInSlots(t, d);
    if CheckHead(d).Late? { DeliverLate(t, d); }
  }

  lemma TrackedPrefix(t: string, v: State, d: Demand)
    requires Following(t, v, d)
    ensures d.sc.parsed == v.parsed <= |d.sc.tokens| && d.sc.tokens <= v.tokens
  {
    hide Invariant, AtTheEnd;
    ParsedWithin(d.sc);
  }

  /** The object once its head has been found free and handed over. */
  ghost function HandedState(v: State, d: Demand): State
    requires CheckHead(d).Free?
  {
    v.(keys := CheckHead(d).sc.keys, parsed := v.parsed + 1)
  }

  lemma FollowsHand(t: string, v: State, d: Demand)
    requires Following(t, v, d) && v.parsed + 3 <= |v.tokens| && CheckHead(d).Free?
    ensures var d1, token := HandHead(d), v.tokens[v.parsed];
      && |d1.ix.numbers| == |d1.sc.keys| && DeliverFrom(t, d1) == DeliverFrom(t, d)
      && (!token.StreamEndToken? ==> Following(t, HandedState(v, d), d1))
      && (token.StreamEndToken? ==> DeliverFrom(t, d1) == Scanned(d1.sc, Complete))
      && d1.sc.parsed == v.parsed + 1 <= |d1.sc.tokens| && d1.sc.tokens <= v.tokens && d1.ix == d.ix
      && (Ended(d1.sc) <==> Ended(d.sc)) && (Ended(HandedState(v, d)) <==> Ended(v))
  {
    hide AtTheEnd, Invariant, DeliverFrom, CheckHead, IndexOk, KeysPlaced, EndIsLast;
    FollowsHead(t, v, d);
    HandGood(t, d);
    HandMark(d);
    DeliverHands(t, d);
    HandedInvariant(v, d);
    HandedLast(v, d);
    if v.tokens[v.parsed].StreamEndToken? { DeliveredAll(t, HandHead(d)); }
  }

  /** STREAM-END is the last token to be handed over, and the others are not. */
  lemma HandedLast(v: State, d: Demand)
    requires Tracks(v, d) && EndIsLast(d.sc) && Waits(d.sc) && MoreToCome(d.sc)
    ensures v.tokens[v.parsed] == d.sc.tokens[v.parsed]
    ensures v.tokens[v.parsed].StreamEndToken? <==> Ended(d.sc) && v.parsed + 1 == |d.sc.tokens|
  {
    var last := |d.sc.tokens| - 1;
    if v.parsed < last { assert d.sc.tokens[..last][v.parsed] == d.sc.tokens[v.parsed]; }
  }

  lemma DeliveredAll(t: string, d: Demand)
    requires |d.ix.numbers| == |d.sc.keys| && Ended(d.sc) && d.sc.parsed >= |d.sc.tokens|
    ensures DeliverFrom(t, d) == Scanned(d.sc, Complete)
  {
  }

  lemma HandedInvariant(v: State, d: Demand)
    requires Invariant(v) && Tracks(v, d) && v.parsed + 3 <= |v.tokens| && CheckHead(d).Free?
    ensures Invariant(HandedState(v, d))
  {
    hide NeverNegative, Balance, Rising;
  }
}
