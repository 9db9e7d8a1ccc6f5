/**
 What asking the scanner for tokens keeps, on any text: the index never leads out of the slots,
 and the head of the queue is not held for ever.
 */
module DemandSafety {
  import opened Chars
  import opened ScalarScan
  import opened Options
  import opened Tokens
  import opened Scanner
  import opened ScanInvariant
  import opened ScanToEnd
  import opened DemandScan
  import NameScan

  // ---------- keys ----------

  /** The key's token is there, and the scanner behind it. */
  predicate Placed(sc: State, key: SimpleKey) {
    key.number < |sc.tokens| && !Starter(sc.tokens[key.number]) && Beyond(key.mark, sc.mark)
  }

  predicate InOrder(a: SimpleKey, b: SimpleKey) {
    a.number < b.number && Onward(a.mark, b.mark)
  }

  /** The keys' tokens are there, those of inner levels behind those of outer ones. */
  predicate KeysPlaced(sc: State) {
    && (forall i :: 0 <= i < |sc.keys| && sc.keys[i].Some? ==> Placed(sc, sc.keys[i].value))
    && (forall i, j :: 0 <= i < j < |sc.keys| && sc.keys[i].Some? && sc.keys[j].Some? ==>
          InOrder(sc.keys[i].value, sc.keys[j].value))
  }

  predicate AllStale(sc: State) {
    forall i :: 0 <= i < |sc.keys| && sc.keys[i].Some? ==> !KeyValid(sc, sc.keys[i].value)
  }

  predicate NoEnds(tokens: seq<Token>) {
    forall i :: 0 <= i < |tokens| ==> !tokens[i].StreamEndToken?
  }

  /** STREAM-END stands at the end of the tokens, if anywhere. */
  predicate EndIsLast(sc: State) {
    sc.tokens == [] || NoEnds(sc.tokens[..|sc.tokens| - 1])
  }

  // ---------- the index ----------

  predicate EntryOk(sc: State, ix: Index, n: nat)
    requires |ix.numbers| == |sc.keys|
  {
    n in ix.byTok ==>
      && n < |sc.tokens|
      && (n >= sc.parsed ==> ix.byTok[n] < |sc.keys| && (ix.byTok[n] == 0 || ix.numbers[ix.byTok[n]] == n))
  }

  predicate HasEntry(ix: Index, i: nat)
    requires i < |ix.numbers|
  {
    ix.numbers[i] in ix.byTok && ix.byTok[ix.numbers[i]] == i
  }

  /** A key that a ':' found too far back has left its entry behind, in front of the head. */
  predicate Ghost(sc: State, ix: Index, i: nat)
    requires |ix.numbers| == |sc.keys| && i < |sc.keys|
  {
    i >= 1 && sc.keys[i].None? && HasEntry(ix, i) && ix.numbers[i] >= sc.parsed
  }

  /** Then no key is valid, and none can be saved before that entry's token is handed over. */
  predicate Quiet(sc: State, ix: Index, i: nat)
    requires |ix.numbers| == |sc.keys| && i < |sc.keys|
  {
    && AllStale(sc) && ix.numbers[i] + 2 <= |sc.tokens|
    && (ix.numbers[i] + 2 == |sc.tokens| ==> !sc.keyAllowed && i == |sc.keys| - 1)
  }

  predicate SlotOk(sc: State, ix: Index, i: nat)
    requires |ix.numbers| == |sc.keys| && i < |sc.keys|
  {
    && ix.numbers[i] < |sc.tokens|
    && (sc.keys[i].Some? ==>
          && ix.numbers[i] == sc.keys[i].value.number
          && (HasEntry(ix, i) && KeyValid(sc, sc.keys[i].value) ==> ix.numbers[i] >= sc.parsed))
    && (Ghost(sc, ix, i) ==> Quiet(sc, ix, i))
  }

  ghost predicate IndexOk(sc: State, ix: Index) {
    && |ix.numbers| == |sc.keys| == sc.flow + 1
    && (forall n :: EntryOk(sc, ix, n))
    && (forall i :: 0 <= i < |sc.keys| ==> SlotOk(sc, ix, i))
  }

  ghost predicate Good(t: string, d: Demand) {
    && Invariant(d.sc)
    && (if d.sc.started then IndexOk(d.sc, d.ix) && KeysPlaced(d.sc) else d.ix == Index([], map[]))
    && (Ended(d.sc) ==> AtTheEnd(t, d.sc)) && EndIsLast(d.sc)
  }

  lemma StartIsGood(t: string)
    ensures Good(t, StartDemand)
  {
  }

  // ---------- a fetch ----------

  /** What may be said when the next token is about to be fetched: no key is saved over a ghost. */
  predicate NoGhostSaved(sc: State, ix: Index)
    requires |ix.numbers| == |sc.keys|
  {
    forall i :: 1 <= i < |sc.keys| && Ghost(sc, ix, i) ==>
      !sc.keyAllowed && i == |sc.keys| - 1 && ix.numbers[i] + 2 == |sc.tokens|
  }

  predicate MayFetch(d: Demand) {
    !(d.sc.parsed + 3 <= |d.sc.tokens|) || CheckHead(d).Held?
  }

  lemma HeldIsValid(d: Demand)
    requires CheckHead(d).Held?
    ensures !AllStale(d.sc)
  {
  }

  lemma FetchFindsNoGhost(d: Demand)
    requires IndexOk(d.sc, d.ix) && MayFetch(d)
    ensures NoGhostSaved(d.sc, d.ix)
  {
    forall i | 1 <= i < |d.sc.keys| && Ghost(d.sc, d.ix, i)
      ensures !d.sc.keyAllowed && i == |d.sc.keys| - 1 && d.ix.numbers[i] + 2 == |d.sc.tokens|
    {
      assert SlotOk(d.sc, d.ix, i);
      if CheckHead(d).Held? { HeldIsValid(d); }
    }
  }

  /** Between the tokens. */
  lemma BetweenTokens(t: string, sc: State)
    requires Running(sc)
    ensures var p := Prepared(t, sc);
      && Running(p) && p.keys == sc.keys && p.flow == sc.flow && p.parsed == sc.parsed && Onward(sc.mark, p.mark)
      && sc.tokens <= p.tokens && (sc.flow > 0 ==> p.tokens == sc.tokens && p.keyAllowed == sc.keyAllowed)
  {
    hide UnrollIndent, Invariant;
    var s := Settled(t, sc);
    assert Running(s) by { SettledHas(t, sc); }
    UnrollKeepsAll(s, s.mark.column);
    UnrollExtends(s, s.mark.column);
    PreparedStands(t, sc);
    if sc.flow > 0 { InFlow(t, sc); }
  }

  lemma SettledHas(t: string, sc: State)
    requires Running(sc)
    ensures Running(Settled(t, sc))
  {
    hide Settle, NeverNegative, Balance, Rising;
  }

  lemma InFlow(t: string, sc: State)
    requires sc.flow > 0
    ensures Prepared(t, sc).tokens == sc.tokens && Prepared(t, sc).keyAllowed == sc.keyAllowed
  {
    SettleInFlow(t, sc.mark, sc.flow, sc.keyAllowed);
  }

  lemma {:induction false} SettleInFlow(t: string, m: Mark, flow: nat, allowed: bool)
    requires flow > 0
    ensures Settle(t, m, flow, allowed).1 == allowed
    decreases Left(t, m)
  {
    var c := Ch(t, m.index);
    if c == ' ' || c == '\t' {
      SettleInFlow(t, Skip(m), flow, allowed);
    } else if IsBreak(c) {
      SettleInFlow(t, SkipLine(t, m), flow, allowed);
    }
  }

  /** Going on in the text, with tokens only put at the end, changes nothing about the keys. */
  lemma PlacedOn(sc: State, p: State)
    requires KeysPlaced(sc) && p.keys == sc.keys && Onward(sc.mark, p.mark) && sc.tokens <= p.tokens
    ensures KeysPlaced(p)
  {
    forall i | 0 <= i < |p.keys| && p.keys[i].Some? ensures Placed(p, p.keys[i].value) {
      assert Placed(sc, sc.keys[i].value);
    }
    forall i, j | 0 <= i < j < |p.keys| && p.keys[i].Some? && p.keys[j].Some?
      ensures InOrder(p.keys[i].value, p.keys[j].value)
    {
      assert InOrder(sc.keys[i].value, sc.keys[j].value);
    }
  }

  lemma StillStale(m: State, n: State, key: SimpleKey)
    requires Onward(m.mark, n.mark) && !KeyValid(m, key)
    ensures !KeyValid(n, key)
  {
  }

  lemma IndexOn(sc: State, p: State, ix: Index)
    requires IndexOk(sc, ix) && p.keys == sc.keys && p.flow == sc.flow && p.parsed == sc.parsed
    requires Onward(sc.mark, p.mark) && sc.tokens <= p.tokens
    requires sc.flow > 0 ==> p.tokens == sc.tokens && p.keyAllowed == sc.keyAllowed
    ensures IndexOk(p, ix)
    ensures NoGhostSaved(sc, ix) ==> NoGhostSaved(p, ix)
  {
    forall n ensures EntryOk(p, ix, n) { assert EntryOk(sc, ix, n); }
    forall i | 0 <= i < |p.keys| ensures SlotOk(p, ix, i) {
      assert SlotOk(sc, ix, i);
      if Ghost(p, ix, i) {
        assert Ghost(sc, ix, i);
        forall j | 0 <= j < |p.keys| && p.keys[j].Some? ensures !KeyValid(p, p.keys[j].value) {
          StillStale(sc, p, sc.keys[j].value);
        }
      }
    }
    if NoGhostSaved(sc, ix) {
      forall i | 1 <= i < |p.keys| && Ghost(p, ix, i)
        ensures !p.keyAllowed && i == |p.keys| - 1 && ix.numbers[i] + 2 == |p.tokens|
      {
        assert Ghost(sc, ix, i);
      }
    }
  }

  // ---------- keys after a fetch ----------

  /** These keys were there before, and so were their tokens. */
  predicate KeysOf(p: State, s: State) {
    forall i :: 0 <= i < |s.keys| && s.keys[i].Some? ==>
      && i < |p.keys| && p.keys[i] == s.keys[i]
      && var n := s.keys[i].value.number; n < |p.tokens| && n < |s.tokens| && s.tokens[n] == p.tokens[n]
  }

  lemma PlacedOf(p: State, s: State)
    requires KeysPlaced(p) && KeysOf(p, s) && Onward(p.mark, s.mark)
    ensures KeysPlaced(s)
  {
    forall i | 0 <= i < |s.keys| && s.keys[i].Some? ensures Placed(s, s.keys[i].value) {
      assert Placed(p, p.keys[i].value);
    }
    forall i, j | 0 <= i < j < |s.keys| && s.keys[i].Some? && s.keys[j].Some?
      ensures InOrder(s.keys[i].value, s.keys[j].value)
    {
      assert InOrder(p.keys[i].value, p.keys[j].value);
    }
  }

  /** A token put behind another leaves it where it is. */
  lemma PutBehind(tokens: seq<Token>, n: nat, parsed: nat, token: Token, k: nat)
    requires k < n <= |tokens|
    ensures var ts := PutAt(tokens, n, parsed, token); |ts| == |tokens| + 1 && ts[k] == tokens[k]
  {
  }

  lemma UsePlaced(p: State, s: State)
    requires KeysPlaced(p) && UsedKey(p, s) && Onward(p.mark, s.mark)
    ensures KeysPlaced(s)
  {
    var last := |p.keys| - 1;
    forall i | 0 <= i < |s.keys| && s.keys[i].Some?
      ensures p.keys[i] == s.keys[i]
      ensures var n := s.keys[i].value.number; n < |p.tokens| && n < |s.tokens| && s.tokens[n] == p.tokens[n]
    {
      assert i < last && Placed(p, p.keys[i].value);
      var k := p.keys[i].value.number;
      if ValidKey(p) {
        var n := p.keys[last].value.number;
        assert InOrder(p.keys[i].value, p.keys[last].value) && Placed(p, p.keys[last].value);
        PutBehind(p.tokens, n, p.parsed, KeyToken, k);
        PutBehind(PutAt(p.tokens, n, p.parsed, KeyToken), n, p.parsed, BlockMappingStartToken, k);
      }
    }
    PlacedOf(p, s);
  }

  lemma SavePlaced(p: State, s: State, more: Slots)
    requires KeysPlaced(p) && Beyond(p.mark, s.mark) && ExtendsOne(p, s)
    requires s.keys == WithKey(p) + more && (more == [] || more == [None])
    ensures KeysPlaced(s)
  {
    forall i | 0 <= i < |s.keys| && s.keys[i].Some? ensures Placed(s, s.keys[i].value) {
      if s.keys[i] == p.keys[i] { assert Placed(p, p.keys[i].value); }
    }
    forall i, j | 0 <= i < j < |s.keys| && s.keys[i].Some? && s.keys[j].Some?
      ensures InOrder(s.keys[i].value, s.keys[j].value)
    {
      assert Placed(p, p.keys[i].value);
      if s.keys[j] == p.keys[j] { assert InOrder(p.keys[i].value, p.keys[j].value); }
    }
  }

  lemma FewerPlaced(p: State, s: State)
    requires KeysPlaced(p) && Onward(p.mark, s.mark) && Extends(p, s)
    requires forall i :: 0 <= i < |s.keys| && s.keys[i].Some? ==> i < |p.keys| && p.keys[i] == s.keys[i]
    ensures KeysPlaced(s)
  {
    forall i | 0 <= i < |s.keys| && s.keys[i].Some?
      ensures var n := s.keys[i].value.number; n < |p.tokens| && n < |s.tokens| && s.tokens[n] == p.tokens[n]
    {
      assert Placed(p, p.keys[i].value);
    }
    PlacedOf(p, s);
  }

  lemma DidPlaced(p: State, s: State, act: Act)
    requires KeysPlaced(p) && Did(act, p, Ok(s)) && Onward(p.mark, s.mark)
    requires act.Save? || act.Open? ==> Beyond(p.mark, s.mark)
    ensures KeysPlaced(s)
  {
    hide KeysPlaced, Onward, Beyond;
    match act
    case Drop => FewerPlaced(p, s);
    case Close => FewerPlaced(p, s);
    case Save => assert s.keys == WithKey(p) + []; SavePlaced(p, s, []);
    case Open => SavePlaced(p, s, [None]);
    case Use => UsePlaced(p, s);
  }

  // ---------- the index after a fetch ----------

  /** Entries are only taken away, and slots given up. */
  lemma IndexLess(p: State, ix: Index, s: State, ix1: Index)
    requires IndexOk(p, ix) && KeysPlaced(p) && NoGhostSaved(p, ix) && Onward(p.mark, s.mark)
    requires |p.tokens| < |s.tokens| && s.parsed == p.parsed
    requires |ix1.numbers| == |s.keys| == s.flow + 1 <= |p.keys| && ix1.numbers == ix.numbers[..|s.keys|]
    requires forall i :: 0 <= i < |s.keys| ==> s.keys[i] == p.keys[i] || s.keys[i].None?
    requires forall n :: n in ix1.byTok ==> n in ix.byTok && ix1.byTok[n] == ix.byTok[n]
    requires forall n :: n in ix1.byTok && n >= p.parsed ==> ix.byTok[n] < |s.keys|
    requires forall i :: 1 <= i < |s.keys| && s.keys[i].None? && p.keys[i].Some? ==>
      !HasEntry(ix1, i) || (i == |p.keys| - 1 && !ValidKey(p) && !s.keyAllowed)
    ensures IndexOk(s, ix1)
  {
    forall n ensures EntryOk(s, ix1, n) { assert EntryOk(p, ix, n); }
    forall i | 0 <= i < |s.keys| ensures SlotOk(s, ix1, i) {
      assert SlotOk(p, ix, i) && ix1.numbers[i] == ix.numbers[i];
      assert HasEntry(ix1, i) ==> HasEntry(ix, i);
      if Ghost(s, ix1, i) {
        if p.keys[i].None? { assert Ghost(p, ix, i); } else { OuterStale(p); }
        StaleOn(p, s);
      }
    }
  }

  /** Where the innermost key is too far back, all are. */
  lemma OuterStale(p: State)
    requires KeysPlaced(p) && p.keys != [] && p.keys[|p.keys| - 1].Some? && !ValidKey(p)
    ensures AllStale(p)
  {
    var last := |p.keys| - 1;
    forall i | 0 <= i < |p.keys| && p.keys[i].Some? ensures !KeyValid(p, p.keys[i].value) {
      if i < last { assert InOrder(p.keys[i].value, p.keys[last].value); }
    }
  }

  lemma StaleOn(p: State, s: State)
    requires AllStale(p) && Onward(p.mark, s.mark)
    requires forall i :: 0 <= i < |s.keys| && s.keys[i].Some? ==> i < |p.keys| && p.keys[i] == s.keys[i]
    ensures AllStale(s)
  {
  }

  lemma DropIndex(p: State, ix: Index, s: State)
    requires IndexOk(p, ix) && KeysPlaced(p) && NoGhostSaved(p, ix) && Onward(p.mark, s.mark)
    requires Did(Drop, p, Ok(s))
    ensures IndexOk(s, Removed(ix, p.keys))
  {
    hide KeysPlaced;
    var last, ix1 := |p.keys| - 1, Removed(ix, p.keys);
    assert SlotOk(p, ix, last);
    forall n | n in ix1.byTok && n >= p.parsed ensures ix.byTok[n] < |s.keys| { assert EntryOk(p, ix, n); }
    IndexLess(p, ix, s, ix1);
  }

  lemma UseIndex(p: State, ix: Index, s: State)
    requires IndexOk(p, ix) && KeysPlaced(p) && NoGhostSaved(p, ix) && Onward(p.mark, s.mark)
    requires Did(Use, p, Ok(s))
    ensures IndexOk(s, Used(ix, p))
  {
    var last, ix1 := |p.keys| - 1, Used(ix, p);
    assert SlotOk(p, ix, last);
    if ValidKey(p) { assert Placed(p, p.keys[last].value); }
    forall n | n in ix1.byTok && n >= p.parsed ensures ix.byTok[n] < |s.keys| { assert EntryOk(p, ix, n); }
    IndexLess(p, ix, s, ix1);
  }

  lemma CloseIndex(p: State, ix: Index, s: State)
    requires IndexOk(p, ix) && KeysPlaced(p) && NoGhostSaved(p, ix) && Onward(p.mark, s.mark)
    requires Did(Close, p, Ok(s))
    ensures IndexOk(s, Closed(Removed(ix, p.keys), p.flow))
  {
    hide KeysPlaced;
    if p.flow == 0 {
      assert Did(Drop, p, Ok(s));
      DropIndex(p, ix, s);
    } else {
      var last, ix1 := |p.keys| - 1, Closed(Removed(ix, p.keys), p.flow);
      forall n | n in ix1.byTok && n >= p.parsed ensures ix.byTok[n] < |s.keys| {
        assert EntryOk(p, ix, n);
      }
      IndexLess(p, ix, s, ix1);
    }
  }

  /** A key is saved, if one may be, and a new slot may come with it. */
  lemma SaveIndex(p: State, ix: Index, s: State, act: Act)
    requires IndexOk(p, ix) && NoGhostSaved(p, ix) && Onward(p.mark, s.mark) && p.parsed <= |p.tokens|
    requires Did(act, p, Ok(s)) && (act.Save? || act.Open?)
    ensures var saved := Saved(ix, p.keys, p.keyAllowed, |p.tokens|);
      IndexOk(s, if act.Save? then saved else Opened(saved, |p.tokens|))
  {
    var last, number, saved := |p.keys| - 1, |p.tokens|, Saved(ix, p.keys, p.keyAllowed, |p.tokens|);
    var ix1 := if act.Save? then saved else Opened(saved, number);
    assert SlotOk(p, ix, last);
    forall n: nat ensures EntryOk(s, ix1, n) {
      assert EntryOk(p, ix, n);
      if p.keyAllowed && n in ix1.byTok && n != number && n >= p.parsed && ix.byTok[n] == last && last != 0 {
        assert ix.numbers[last] == n && HasEntry(ix, last);
        assert Ghost(p, ix, last);
      }
    }
    forall i | 0 <= i < |s.keys| ensures SlotOk(s, ix1, i) {
      if i <= last {
        assert SlotOk(p, ix, i);
        if Ghost(s, ix1, i) {
          assert Ghost(p, ix, i);
          StaleOn(p, s);
        }
      } else {
        assert EntryOk(p, ix, number);
      }
    }
  }

  lemma DidIndex(p: State, ix: Index, s: State, act: Act, ix1: Index)
    requires IndexOk(p, ix) && KeysPlaced(p) && NoGhostSaved(p, ix) && Onward(p.mark, s.mark)
    requires p.parsed <= |p.tokens| && Did(act, p, Ok(s))
    requires ix1 == match act {
      case Drop => Removed(ix, p.keys)
      case Save => Saved(ix, p.keys, p.keyAllowed, |p.tokens|)
      case Open => Opened(Saved(ix, p.keys, p.keyAllowed, |p.tokens|), |p.tokens|)
      case Close => Closed(Removed(ix, p.keys), p.flow)
      case Use => Used(ix, p)
    }
    ensures IndexOk(s, ix1)
  {
    hide IndexOk, KeysPlaced, NoGhostSaved, Did, Removed, Saved, Opened, Closed, Used;
    match act
    case Drop => DropIndex(p, ix, s);
    case Save => SaveIndex(p, ix, s, act);
    case Open => SaveIndex(p, ix, s, act);
    case Close => CloseIndex(p, ix, s);
    case Use => UseIndex(p, ix, s);
  }

  lemma DispatchOnward(t: string, p: State)
    requires p.started
    ensures var r := Dispatch(t, p);
      r.Ok? ==> Onward(p.mark, r.value.mark) && (!ActOf(t, p).Drop? ==> Beyond(p.mark, r.value.mark))
  {
    hide Dispatch, UnrollIndent;
    if Ch(t, p.mark.index) == NUL {
      DispatchAtNul(t, p);
      StreamEndIsEnd(t, p);
    } else {
      DispatchGoesOn(t, p);
    }
  }

  /** A fetch made when the source makes one keeps all of it. */
  lemma FetchGood(t: string, d: Demand)
    requires Good(t, d) && MayFetch(d) && !Ended(d.sc) && |d.ix.numbers| == |d.sc.keys|
    ensures var r := FetchNext(t, d.sc); r.Ok? ==> Good(t, Demand(r.value, IndexNext(t, d.sc, d.ix)))
  {
    hide Dispatch, Prepared, IndexOk, KeysPlaced, AtTheEnd, MayFetch, NoGhostSaved, Invariant;
    var r := FetchNext(t, d.sc);
    FetchKeeps(t, d.sc);
    FetchAdvances(t, d.sc);
    FetchLast(t, d.sc);
    if r.Ok? {
      if d.sc.started {
        StartedGood(t, d);
      } else {
        StreamStartGood(t, d);
        assert d.ix.numbers + [0] == [0];
      }
    }
  }

  lemma StreamStartGood(t: string, d: Demand)
    requires Good(t, d) && !d.sc.started
    ensures var r := FetchNext(t, d.sc); r.Ok? && IndexOk(r.value, Index([0], map[])) && KeysPlaced(r.value)
  {
  }

  lemma StartedGood(t: string, d: Demand)
    requires Good(t, d) && d.sc.started && MayFetch(d) && |d.ix.numbers| == |d.sc.keys|
    ensures var r := FetchNext(t, d.sc);
      r.Ok? ==> IndexOk(r.value, IndexNext(t, d.sc, d.ix)) && KeysPlaced(r.value)
  {
    hide Dispatch, Prepared, IndexOk, KeysPlaced, AtTheEnd, MayFetch, NoGhostSaved, ActOf, Onward, Beyond, Did, Extends;
    var sc, ix, p := d.sc, d.ix, Prepared(t, d.sc);
    var r, act := Dispatch(t, p), ActOf(t, p);
    assert Running(sc);
    if r.Ok? {
      FetchFindsNoGhost(d);
      BetweenTokens(t, sc);
      IndexOn(sc, p, ix);
      PlacedOn(sc, p);
      DispatchDid(t, p);
      DispatchOnward(t, p);
      DidPlaced(p, r.value, act);
      DidIndex(p, ix, r.value, act, IndexDispatch(t, p, ix));
    }
  }

  // ---------- the end is the last token ----------

  predicate EndLast(r: Fetched) {
    r.Ok? ==> EndIsLast(r.value)
  }

  lemma AppendedLast(sc: State, token: Token)
    requires NoEnds(sc.tokens)
    ensures EndIsLast(AppendToken(sc, token))
  {
  }

  lemma {:induction false} UnrollNoEnds(sc: State, column: int)
    requires NoEnds(sc.tokens)
    ensures NoEnds(UnrollIndent(sc, column).tokens)
    decreases |sc.indents|
  {
    if !(sc.flow > 0 || sc.indent <= column || sc.indents == []) {
      var last := |sc.indents| - 1;
      UnrollNoEnds(AppendToken(sc, BlockEndToken).(indent := sc.indents[last], indents := sc.indents[..last]), column);
    }
  }

  lemma RollNoEnds(sc: State, column: int, number: int, token: Token)
    requires NoEnds(sc.tokens) && !token.StreamEndToken?
    ensures var r := RollIndent(sc, column, number, token); r.Ok? ==> NoEnds(r.value.tokens)
  {
  }

  lemma ClosedLast(sc: State, token: Token)
    requires NoEnds(sc.tokens)
    ensures var r := RemoveKey(UnrollIndent(sc, -1)); r.Ok? ==> NoEnds(r.value.tokens)
  {
    hide UnrollIndent, RemoveKey;
    UnrollNoEnds(sc, -1);
    RemoveDid(UnrollIndent(sc, -1));
  }

  lemma ClosingLast(t: string, sc: State, token: Token)
    requires NoEnds(sc.tokens)
    ensures EndLast(FetchStreamEnd(sc)) && EndLast(FetchDocumentIndicator(sc, token))
    ensures sc.mark.index < |t| ==> EndLast(FetchDirective(t, sc))
  {
    hide UnrollIndent, RemoveKey, NameScan.ScanDirective, NoEnds, EndIsLast;
    var m := if sc.mark.column != 0 then Mark(sc.mark.index, sc.mark.line + 1, 0) else sc.mark;
    ClosedLast(sc.(mark := m), StreamEndToken);
    ClosedLast(sc, token);
    var a, b := RemoveKey(UnrollIndent(sc.(mark := m), -1)), RemoveKey(UnrollIndent(sc, -1));
    if a.Ok? { AppendedLast(a.value.(keyAllowed := false), StreamEndToken); }
    if b.Ok? {
      AppendedLast(b.value.(keyAllowed := false, mark := Advance(sc.mark, 3)), token);
      if sc.mark.index < |t| && NameScan.ScanDirective(t, sc.mark).Ok? {
        var d := NameScan.ScanDirective(t, sc.mark).value;
        AppendedLast(b.value.(keyAllowed := false, mark := d.1), d.0);
      }
    }
  }

  lemma FlowLast(sc: State, token: Token)
    requires NoEnds(sc.tokens)
    ensures EndLast(FetchFlowStart(sc, token)) && EndLast(FetchFlowEnd(sc, token)) && EndLast(FetchFlowEntry(sc))
  {
    hide RemoveKey, SaveKey;
    RemoveDid(sc);
  }

  lemma BlockLast(sc: State)
    requires NoEnds(sc.tokens)
    ensures EndLast(FetchBlockEntry(sc)) && EndLast(FetchKey(sc)) && EndLast(FetchValue(sc))
  {
    BlockEntryLast(sc);
    ValueLast(sc);
  }

  lemma BlockEntryLast(sc: State)
    requires NoEnds(sc.tokens)
    ensures EndLast(FetchBlockEntry(sc)) && EndLast(FetchKey(sc))
  {
    hide RollIndent, RemoveKey;
    RollNoEnds(sc, sc.mark.column, -1, BlockSequenceStartToken);
    RollNoEnds(sc, sc.mark.column, -1, BlockMappingStartToken);
    var a := RollIndent(sc, sc.mark.column, -1, BlockSequenceStartToken);
    var b := RollIndent(sc, sc.mark.column, -1, BlockMappingStartToken);
    if a.Ok? { RemoveDid(a.value); }
    if b.Ok? { RemoveDid(b.value); }
  }

  lemma ValueLast(sc: State)
    requires NoEnds(sc.tokens)
    ensures EndLast(FetchValue(sc))
  {
    hide RollIndent, KeyValid;
    var last := |sc.keys| - 1;
    if ValidKey(sc) {
      var key := sc.keys[last].value;
      var put := InsertToken(sc, key.number - sc.parsed, KeyToken);
      RollNoEnds(put, key.mark.column, key.number, BlockMappingStartToken);
    } else {
      var sc0 := if sc.keys == [] then sc else sc.(keys := sc.keys[last := None]);
      RollNoEnds(sc0, sc.mark.column, -1, BlockMappingStartToken);
    }
  }

  lemma ScalarLast(t: string, sc: State, single: bool, alias: bool)
    requires NoEnds(sc.tokens)
    ensures EndLast(FetchFlowScalar(t, sc, single)) && EndLast(FetchPlainScalar(t, sc))
    ensures sc.mark.index < |t| ==> EndLast(FetchAnchor(t, sc, alias)) && EndLast(FetchTag(t, sc))
  {
    hide SaveKey, ScanFlow, ScanPlain, NameScan.ScanAnchor, NameScan.ScanTag;
    RemoveDid(sc);
  }

  lemma DispatchLast(t: string, sc: State)
    requires NoEnds(sc.tokens)
    ensures EndLast(Dispatch(t, sc))
  {
    hide NoEnds, EndIsLast, FetchStreamEnd, FetchDocumentIndicator, FetchFlowStart, FetchFlowEnd, FetchFlowEntry,
      FetchBlockEntry, FetchKey, FetchValue, FetchFlowScalar, FetchPlainScalar, FetchAnchor, FetchTag, FetchDirective,
      StartsPlain, DocIndicatorAt;
    ClosingLast(t, sc, DocumentStartToken);
    ClosingLast(t, sc, DocumentEndToken);
    FlowLast(sc, FlowSequenceStartToken);
    FlowLast(sc, FlowMappingStartToken);
    FlowLast(sc, FlowSequenceEndToken);
    FlowLast(sc, FlowMappingEndToken);
    BlockLast(sc);
    ScalarLast(t, sc, true, true);
    ScalarLast(t, sc, false, false);
  }

  lemma FetchLast(t: string, sc: State)
    requires EndIsLast(sc) && !Ended(sc)
    ensures EndLast(FetchNext(t, sc))
  {
    hide Dispatch, Settle, UnrollIndent;
    assert NoEnds(sc.tokens);
    if sc.started {
      UnrollNoEnds(Settled(t, sc), Settled(t, sc).mark.column);
      DispatchLast(t, Prepared(t, sc));
    }
  }

  // ---------- handing over ----------

  lemma HeadIsInSlots(t: string, d: Demand)
    requires Good(t, d)
    ensures !CheckHead(d).OutOfSlots?
  {
    if d.sc.started {
      assert EntryOk(d.sc, d.ix, d.sc.parsed);
    }
  }

  /** At the end of the text no key is valid. */
  lemma NothingHeldAtEnd(t: string, d: Demand)
    requires Good(t, d) && Ended(d.sc)
    ensures !CheckHead(d).Held?
  {
    assert AllStale(d.sc) by { EndIsStale(t, d.sc); }
    if CheckHead(d).Held? { HeldIsValid(d); }
  }

  lemma EndIsStale(t: string, sc: State)
    requires AtTheEnd(t, sc) && KeysPlaced(sc)
    ensures AllStale(sc)
  {
    forall i | 0 <= i < |sc.keys| && sc.keys[i].Some? ensures !KeyValid(sc, sc.keys[i].value) {
      assert Placed(sc, sc.keys[i].value);
    }
  }

  lemma HandGood(t: string, d: Demand)
    requires Good(t, d) && Waits(d.sc) && CheckHead(d).Free?
    ensures Good(t, HandHead(d))
  {
    hide AtTheEnd, Invariant;
    var sc, d1 := d.sc, HandHead(d);
    assert sc.started by { WaitsStarted(sc); }
    HandInvariant(d);
    assert EntryOk(sc, d.ix, sc.parsed);
    forall i | 0 <= i < |sc.keys| ensures SlotOk(d1.sc, d.ix, i) {
      assert SlotOk(sc, d.ix, i);
      if Ghost(d1.sc, d.ix, i) { assert Ghost(sc, d.ix, i); }
    }
    forall n: nat ensures EntryOk(d1.sc, d.ix, n) { assert EntryOk(sc, d.ix, n); }
    HandPlaced(d);
    if Ended(sc) { HandAtTheEnd(t, d); }
  }

  lemma WaitsStarted(sc: State)
    requires Invariant(sc) && Waits(sc)
    ensures sc.started
  {
  }

  lemma HandInvariant(d: Demand)
    requires Invariant(d.sc) && d.sc.started && Waits(d.sc) && CheckHead(d).Free?
    ensures Invariant(HandHead(d).sc)
  {
    hide NeverNegative, Balance, Rising;
  }

  lemma HandPlaced(d: Demand)
    requires KeysPlaced(d.sc) && CheckHead(d).Free?
    ensures KeysPlaced(HandHead(d).sc)
  {
    var s := HandHead(d).sc;
    forall i | 0 <= i < |s.keys| && s.keys[i].Some? ensures Placed(s, s.keys[i].value) {
      assert Placed(d.sc, d.sc.keys[i].value);
    }
    forall i, j | 0 <= i < j < |s.keys| && s.keys[i].Some? && s.keys[j].Some?
      ensures InOrder(s.keys[i].value, s.keys[j].value)
    {
      assert InOrder(d.sc.keys[i].value, d.sc.keys[j].value);
    }
  }

  lemma HandAtTheEnd(t: string, d: Demand)
    requires AtTheEnd(t, d.sc) && CheckHead(d).Free?
    ensures AtTheEnd(t, HandHead(d).sc)
  {
  }

  // ---------- the whole run ----------

  /**
   Whatever the text: no look into the index leads out of the slots, the scanner does not go on
   for ever, and comes to STREAM-END with every token handed over, or to an error.
   */
  lemma {:induction false} DeliveredSafely(t: string, d: Demand)
    requires Good(t, d) && |d.ix.numbers| == |d.sc.keys|
    ensures var r := DeliverFrom(t, d);
      && (r.ending.Complete? || r.ending.Failed?) && Invariant(r.sc) && d.sc.parsed <= r.sc.parsed <= |r.sc.tokens|
      && (r.ending.Complete? ==> r.sc.parsed == |r.sc.tokens| && AtTheEnd(t, r.sc))
    decreases Left(t, d.sc.mark), if d.sc.started then 0 else 1, if Ended(d.sc) then 0 else 1,
      if d.sc.parsed <= |d.sc.tokens| then |d.sc.tokens| - d.sc.parsed else 0
  {
    hide FetchNext, IndexNext, AtTheEnd, IndexOk, KeysPlaced, Invariant, CheckHead;
    var sc := d.sc;
    assert sc.parsed <= |sc.tokens| by { ParsedWithin(sc); }
    HeadIsInSlots(t, d);
    if Ended(sc) && sc.parsed >= |sc.tokens| {
    } else if Waits(sc) && !CheckHead(d).Held? {
      if CheckHead(d).Free? {
        HandGood(t, d);
        HandMark(d);
        DeliveredSafely(t, HandHead(d));
      }
    } else if Ended(sc) {
      NothingHeldAtEnd(t, d);
      assert false;
    } else if FetchNext(t, sc).Ok? {
      FetchGood(t, d);
      FetchAdvances(t, sc);
      KeysCount(t, sc, d.ix);
      FetchKeepsParsed(t, sc);
      DeliveredSafely(t, Demand(FetchNext(t, sc).value, IndexNext(t, sc, d.ix)));
    }
  }

  lemma ParsedWithin(sc: State)
    requires Invariant(sc)
    ensures sc.parsed <= |sc.tokens|
  {
  }

  lemma HandMark(d: Demand)
    requires CheckHead(d).Free?
    ensures var s := HandHead(d).sc;
      && s.mark == d.sc.mark && s.started == d.sc.started && s.tokens == d.sc.tokens && s.parsed == d.sc.parsed + 1
      && |s.keys| == |d.sc.keys| && s == d.sc.(keys := CheckHead(d).sc.keys, parsed := d.sc.parsed + 1)
  {
  }

  /**
   On any text, keys lost or not: what is handed over never ends more blocks than it starts, and
   at the end of the text, outside flow collections, every block that was started has been ended.
   */
  lemma DeliveredBalances(t: string)
    ensures var r := ScanAll(t);
      && (r.ending.Complete? || r.ending.Failed?)
      && (forall k :: 0 <= k <= |r.Tokens()| ==> Balance(r.Tokens()[..k]) >= 0)
      && (r.ending.Complete? && r.sc.flow == 0 ==> r.sc.indents == [] && Balance(r.Tokens()) == 0)
  {
    hide DeliverFrom, AtTheEnd, Balance, NeverNegative;
    StartIsGood(t);
    DeliveredSafely(t, StartDemand);
    var r := ScanAll(t);
    assert r.ending.Complete? ==> r.Tokens() == r.sc.tokens;
    if r.ending.Complete? { EndBalances(t, r.sc); }
    forall k | 0 <= k <= |r.Tokens()| ensures Balance(r.Tokens()[..k]) >= 0 {
      assert r.Tokens()[..k] == r.sc.tokens[..k];
      InvariantBalances(r.sc, k);
    }
  }

  lemma InvariantBalances(sc: State, k: nat)
    requires Invariant(sc) && k <= |sc.tokens|
    ensures Balance(sc.tokens[..k]) >= 0
  {
    if sc.started { PrefixBalance(sc.tokens, k); }
  }
}
