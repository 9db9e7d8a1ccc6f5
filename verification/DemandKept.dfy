/**
 Where no key is lost: in every scan that comes to each ':' behind a simple key while the index
 still has that key, or right after it; and so in every printed document.
 */
module DemandKept {
  import opened Chars
  import opened ScalarScan
  import opened Options
  import opened Tokens
  import opened Layout
  import opened LayoutTokens
  import opened Scanner
  import opened ScanSteps
  import opened ScanStream
  import opened ScanInvariant
  import opened ScanToEnd
  import opened DemandScan
  import opened DemandSafety
  import opened DemandExact
  import OnDemand

  /** A simple key that a ':' comes behind is in the index, or one of the last two tokens. */
  predicate InPlace(t: string, e: State, ix: Index)
    requires |ix.numbers| == |e.keys|
  {
    SameKeys(t, e);
    e.started ==>
      var p := Prepared(t, e);
      ActOf(t, p).Use? && ValidKey(p) ==>
        HasEntry(ix, |p.keys| - 1) || p.keys[|p.keys| - 1].value.number + 2 >= |p.tokens|
  }

  /** So it is all through the scan, and keys that must be keys are in time. */
  predicate KeysIndexed(t: string, e: State, ix: Index)
    requires |ix.numbers| == |e.keys|
    decreases Left(t, e.mark), if e.started then 0 else 1
  {
    && InPlace(t, e, ix)
    && match FetchNext(t, e)
       case Err(_) => true
       case Ok(e1) =>
         FetchAdvances(t, e);
         KeysCount(t, e, ix);
         KeysInTime(e1) && (Ended(e1) || KeysIndexed(t, e1, IndexNext(t, e, ix)))
  }

  /** The index of the scanner that hands tokens over has these entries at least. */
  predicate Keeps(ix: Index, more: Index) {
    more.numbers == ix.numbers && forall n :: n in ix.byTok ==> n in more.byTok && more.byTok[n] == ix.byTok[n]
  }

  lemma RemovedKeeps(e: State, s: State, ix: Index, more: Index)
    requires Fresher(e, s) && Keeps(ix, more) && |ix.numbers| == |e.keys|
    ensures Keeps(Removed(ix, e.keys), Removed(more, s.keys))
    ensures forall allowed, number :: Keeps(Saved(ix, e.keys, allowed, number), Saved(more, s.keys, allowed, number))
  {
    if e.keys != [] {
      var last := |e.keys| - 1;
      assert s.keys[last] == e.keys[last] || GivenUp(e, s, last);
    }
  }

  lemma DispatchKeeps(t: string, p: State, q: State, ix: Index, more: Index)
    requires SameBare(p, q) && Fresher(p, q) && |q.tokens| == |p.tokens| && Keeps(ix, more)
    requires |ix.numbers| == |p.keys| && (ValidKey(p) <==> ValidKey(q))
    ensures Keeps(IndexDispatch(t, p, ix), IndexDispatch(t, q, more))
  {
    hide ActOf, Fresher, ValidKey;
    assert ActOf(t, p) == ActOf(t, q) by { SameAct(t, p, q); }
    SameCount(p, q);
    RemovedKeeps(p, q, ix, more);
    UsedIs(ix, p);
    UsedIs(more, q);
  }

  lemma SameAct(t: string, p: State, q: State)
    requires SameBare(p, q)
    ensures ActOf(t, p) == ActOf(t, q)
  {
  }

  lemma UsedIs(ix: Index, sc: State)
    requires |ix.numbers| == |sc.keys|
    ensures Used(ix, sc) == if ValidKey(sc) then ix.(byTok := ix.byTok - {ix.numbers[|sc.keys| - 1]}) else ix
  {
  }

  lemma NextKeeps(t: string, e: State, s: State, ix: Index, more: Index)
    requires SameBare(e, s) && Fresher(e, s) && |s.tokens| == |e.tokens| && Keeps(ix, more)
    requires |ix.numbers| == |e.keys| && (e.started ==> e.keys != [])
    ensures |more.numbers| == |s.keys|
    ensures Keeps(IndexNext(t, e, ix), IndexNext(t, s, more))
  {
    hide Prepared, IndexDispatch, Fresher, Grown, ActOf, ValidKey, FetchValue;
    SameCount(e, s);
    if e.started {
      var p, q := Prepared(t, e), Prepared(t, s);
      PreparedAlike(t, e, s);
      ValueBare(p, q);
      DispatchKeeps(t, p, q, ix, more);
    }
  }

  /** Two tokens stay in the queue, but at the beginning and at the end. */
  predicate TwoStay(sc: State) {
    sc.parsed == 0 || sc.parsed + 2 <= |sc.tokens| || Ended(sc)
  }

  lemma PlaceIsKept(t: string, e: State, d: Demand, ix: Index)
    requires Good(t, d) && Alike(e, d.sc) && Keeps(ix, d.ix) && TwoStay(d.sc) && !Ended(d.sc)
    requires |ix.numbers| == |e.keys| && InPlace(t, e, ix)
    ensures !LosesKey(t, d.sc)
  {
    hide Prepared, ActOf, AtTheEnd, Invariant, Grown, FetchValue, KeyValid;
    if d.sc.started {
      var s, p, q := d.sc, Prepared(t, e), Prepared(t, d.sc);
      PreparedAlike(t, e, s);
      BetweenTokens(t, s);
      IndexOn(s, q, d.ix);
      SameAct(t, p, q);
      if ActOf(t, q).Use? && ValidKey(q) {
        var last := |q.keys| - 1;
        ValueBare(p, q);
        assert SlotOk(q, d.ix, last);
        SameKeys(t, e);
      }
    }
  }

  /** Then nothing is lost, whenever tokens are handed over. */
  lemma {:induction false} IndexedIsKept(t: string, e: State, ix: Index, d: Demand)
    requires Good(t, d) && |d.ix.numbers| == |d.sc.keys| && Alike(e, d.sc) && e.parsed == 0
    requires |ix.numbers| == |e.keys| && Keeps(ix, d.ix) && TwoStay(d.sc)
    requires KeysInTime(e) && (Ended(e) || KeysIndexed(t, e, ix))
    ensures NothingLost(t, d)
    decreases Left(t, d.sc.mark), if d.sc.started then 0 else 1, if Ended(d.sc) then 0 else 1,
      if d.sc.parsed <= |d.sc.tokens| then |d.sc.tokens| - d.sc.parsed else 0
  {
    hide FetchNext, IndexNext, AtTheEnd, IndexOk, KeysPlaced, Invariant, CheckHead, Fresher, LosesKey, Keeps, InPlace,
      KeysInTime;
    var sc := d.sc;
    ParsedWithin(sc);
    HeadIsInSlots(t, d);
    SameEnd(e, sc);
    if Ended(sc) && sc.parsed >= |sc.tokens| {
    } else if Waits(sc) && !CheckHead(d).Held? {
      NotLate(e, d);
      HandGood(t, d);
      HandMark(d);
      HandAlike(e, d);
      IndexedIsKept(t, e, ix, HandHead(d));
    } else if Ended(sc) {
      NothingHeldAtEnd(t, d);
      assert false;
    } else {
      PlaceIsKept(t, e, d, ix);
      FetchLocked(t, e, d);
      FetchAdvances(t, sc);
      if FetchNext(t, sc).Ok? {
        var e1 := FetchNext(t, e).value;
        FetchGood(t, d);
        KeysCount(t, sc, d.ix);
        KeysCount(t, e, ix);
        KeysThere(t, e, d);
        NextKeeps(t, e, sc, ix, d.ix);
        StillTwo(t, sc);
        IndexedIsKept(t, e1, IndexNext(t, e, ix), Demand(FetchNext(t, sc).value, IndexNext(t, sc, d.ix)));
      }
    }
  }

  lemma NotLate(e: State, d: Demand)
    requires Alike(e, d.sc) && KeysInTime(e)
    ensures !CheckHead(d).Late?
  {
  }

  lemma KeysThere(t: string, e: State, d: Demand)
    requires Good(t, d) && Alike(e, d.sc)
    ensures e.started ==> e.keys != []
  {
    if d.sc.started { RunningHasKeys(d.sc); }
  }

  lemma StillTwo(t: string, sc: State)
    requires TwoStay(sc) && !Ended(sc) && FetchNext(t, sc).Ok?
    ensures TwoStay(FetchNext(t, sc).value)
  {
    hide UnrollIndent, Settle, Dispatch, ActOf, KeyValid, Did;
    if sc.started {
      UnrollExtends(Settled(t, sc), Settled(t, sc).mark.column);
      DispatchDid(t, Prepared(t, sc));
      OnDemand.FetchKept(t, sc, 0);
      KeptParsed(ActOf(t, Prepared(t, sc)), Prepared(t, sc), FetchNext(t, sc).value);
    }
  }

  // ---------- printed documents ----------

  /** A scan in which each key is the last token before its ':' and is in time has them all in place. */
  lemma {:induction false} CloseIsIndexed(t: string, e: State, ix: Index, n: nat)
    requires |ix.numbers| == |e.keys| && n > 0 && Run(Fetcher(t), e, n).Ok?
    requires Ended(Run(Fetcher(t), e, n).value) && KeysInTime(Run(Fetcher(t), e, n).value)
    ensures KeysIndexed(t, e, ix)
    decreases n
  {
    hide FetchNext, IndexNext, KeysInTime, InPlace, AtTheEnd;
    assert Fetcher(t)(e) == FetchClose(t, e);
    CloseInPlace(t, e, ix);
    var e1 := FetchNext(t, e).value;
    FetchAdvances(t, e);
    KeysCount(t, e, ix);
    if n == 1 {
      assert Run(Fetcher(t), e1, 0) == Ok(e1);
    } else {
      assert Fetcher(t)(e1) == FetchClose(t, e1);
      CloseInTime(t, e1);
      if !Ended(e1) { CloseIsIndexed(t, e1, IndexNext(t, e, ix), n - 1); }
    }
  }

  lemma CloseInPlace(t: string, e: State, ix: Index)
    requires |ix.numbers| == |e.keys| && FetchClose(t, e).Ok?
    ensures InPlace(t, e, ix) && FetchClose(t, e) == FetchNext(t, e)
  {
    hide FetchNext, Prepared, KeysInTime;
    SameKeys(t, e);
    UseComes(t, Prepared(t, e));
  }

  lemma UseComes(t: string, sc: State)
    ensures ActOf(t, sc).Use? ==> ValueNext(t, sc)
  {
  }

  lemma CloseInTime(t: string, e: State)
    requires FetchClose(t, e).Ok?
    ensures KeysInTime(e)
  {
    hide FetchNext;
  }

  /** A scan that comes to the end so is delivered as its tokens. */
  lemma TextDelivered(t: string, n: nat, done: State)
    requires n > 0 && Run(Fetcher(t), StartState, n) == Ok(done) && EndsOnce(done.tokens) && KeysInTime(done)
    ensures ScanAll(t).ending.Complete? && ScanAll(t).Tokens() == done.tokens
  {
    hide FetchToEnd, DeliverFrom, NothingLost, Run, FetchMany, KeysIndexed, Good, KeysInTime;
    RunIsFetchMany(t, Fetcher(t), StartState, n);
    StopsAtEnd(t, StartState, n);
    CloseIsIndexed(t, StartState, StartDemand.ix, n);
    StartIsGood(t);
    assert KeysInTime(StartState) by { NoKeys(); }
    IndexedIsKept(t, StartState, StartDemand.ix, StartDemand);
    OnDemandExactly(t);
  }

  lemma NoKeys()
    ensures KeysInTime(StartState)
  {
  }

  /** What is printed for a JSON tree is delivered as the tree's tokens, with none left out or late. */
  lemma DocumentDelivered(tree: Tree, env: Env)
    requires ValidEnv(env) && ValidTree(tree) && Depth(tree) <= MAX_INDENTS
    ensures var r := ScanAll(EmitDocument(tree, env).out);
      r.ending.Complete? && r.Tokens() == DocumentTokens(tree, env)
  {
    hide EmitDocument, DocumentTokens, DocumentFetches, DeliverFrom, Run, FetchMany, Depth;
    var t, n := EmitDocument(tree, env).out, DocumentFetches(tree, env);
    DocumentRead(tree, env);
    DocumentEndsOnce(tree, env);
    TextDelivered(t, n, FetchMany(t, StartState, n).value);
  }
}
