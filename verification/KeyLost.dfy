/**
 How a key is lost. In `{?}: x` the mapping is the key of another one. No key is saved inside it,
 so that closing it takes the entry of the outer key out of the index; its bracket is handed over
 as no key, and KEY comes too late.
 */
module KeyLost {
  import opened Chars
  import opened ScalarScan
  import opened Options
  import opened Resolve
  import opened Tokens
  import opened Scanner
  import opened ScanToEnd
  import opened DemandScan
  import opened DemandSafety
  import opened DemandExact

  /** Closing a collection leaves the entry of the key around it if a key was saved inside. */
  lemma ClosingTakesEntry(sc: State, ix: Index)
    requires IndexOk(sc, ix) && sc.flow > 0
    requires var i := |sc.keys| - 2; sc.keys[i].Some? && HasEntry(ix, i)
    ensures var i, ix1 := |sc.keys| - 2, Closed(Removed(ix, sc.keys), sc.flow);
      HasEntry(ix1, i) <==> ix.numbers[|sc.keys| - 1] != ix.numbers[i]
  {
    assert SlotOk(sc, ix, |sc.keys| - 1);
  }

  // ---------- the scan of {?}: x ----------

  const TEXT := "{?}: x"
  const OUTER := SimpleKey(false, 1, Mark(0, 0, 0))

  type Row = seq<Token>

  function Begun(ts: Row, k: nat): State {
    State(Mark(0, 0, 0), -1, [], 0, [None], true, ts, k, true)
  }

  function InMapping(ts: Row, k: nat): State {
    State(Mark(1, 0, 1), -1, [], 1, [Some(OUTER), None], true, ts, k, true)
  }

  function Asked(ts: Row, k: nat): State {
    State(Mark(2, 0, 2), -1, [], 1, [Some(OUTER), None], false, ts, k, true)
  }

  function MappingClosed(ts: Row, k: nat): State {
    State(Mark(3, 0, 3), -1, [], 0, [Some(OUTER)], false, ts, k, true)
  }

  function Valued(ts: Row, k: nat): State {
    State(Mark(4, 0, 4), 0, [-1], 0, [None], false, ts, k, true)
  }

  function Plained(ts: Row, k: nat): State {
    State(Mark(6, 0, 6), 0, [-1], 0, [None], false, ts, k, true)
  }

  function AtEnd(ts: Row, k: nat): State {
    State(Mark(6, 1, 0), -1, [], 0, [None], false, ts, k, true)
  }

  lemma Starts()
    ensures FetchNext(TEXT, StartState) == Ok(Begun([StreamStartToken], 0))
  {
    var none: Slots := [None];
    assert [] + none == none && [] + [StreamStartToken] == [StreamStartToken];
  }

  lemma Opens(ts: Row, k: nat)
    requires |ts| == 1
    ensures FetchNext(TEXT, Begun(ts, k)) == Ok(InMapping(ts + [FlowMappingStartToken], k))
    ensures Prepared(TEXT, Begun(ts, k)) == Begun(ts, k) && ActOf(TEXT, Begun(ts, k)).Open?
  {
    var sc := Begun(ts, k);
    assert Ch(TEXT, 0) == '{';
    assert Settle(TEXT, sc.mark, 0, true) == (sc.mark, true);
    assert Prepared(TEXT, sc) == sc;
    assert sc.keys[0 := None] == sc.keys && sc.keys[0 := Some(OUTER)] + [None] == [Some(OUTER), None];
  }

  lemma Asks(ts: Row, k: nat)
    ensures FetchNext(TEXT, InMapping(ts, k)) == Ok(Asked(ts + [KeyToken], k))
    ensures Prepared(TEXT, InMapping(ts, k)) == InMapping(ts, k) && ActOf(TEXT, InMapping(ts, k)).Drop?
  {
    var sc := InMapping(ts, k);
    assert Ch(TEXT, 1) == '?';
    assert Prepared(TEXT, sc) == sc;
    assert sc.keys[1 := None] == sc.keys;
  }

  lemma Closes(ts: Row, k: nat)
    ensures FetchNext(TEXT, Asked(ts, k)) == Ok(MappingClosed(ts + [FlowMappingEndToken], k))
    ensures Prepared(TEXT, Asked(ts, k)) == Asked(ts, k) && ActOf(TEXT, Asked(ts, k)).Close?
  {
    var sc := Asked(ts, k);
    assert Ch(TEXT, 2) == '}';
    assert Prepared(TEXT, sc) == sc;
    assert sc.keys[1 := None] == sc.keys && sc.keys[..1] == [Some(OUTER)];
  }

  lemma Values(ts: Row, k: nat)
    requires |ts| >= 1
    ensures FetchNext(TEXT, MappingClosed(ts, k))
         == Ok(Valued(PutAt(PutAt(ts, 1, k, KeyToken), 1, k, BlockMappingStartToken) + [ValueToken], k))
    ensures Prepared(TEXT, MappingClosed(ts, k)) == MappingClosed(ts, k) && ActOf(TEXT, MappingClosed(ts, k)).Use?
  {
    var sc := MappingClosed(ts, k);
    assert Ch(TEXT, 3) == ':' && Ch(TEXT, 4) == ' ';
    assert Prepared(TEXT, sc) == sc;
    assert sc.keys[0 := None] == [None] && sc.indents + [sc.indent] == [-1];
    ValueDid(sc);
    UseIsValue(TEXT, sc);
    assert FetchValue(sc).Ok?;
    assert FetchValue(sc).value == Valued(FetchValue(sc).value.tokens, k);
  }

  lemma ReadsPlain(ts: Row, k: nat)
    ensures FetchNext(TEXT, Valued(ts, k)) == Ok(Plained(ts + [ScalarToken("x", Plain)], k))
    ensures var p := Prepared(TEXT, Valued(ts, k)); p == Valued(ts, k).(mark := Mark(5, 0, 5)) && ActOf(TEXT, p).Save?
  {
    var sc := Valued(ts, k);
    assert Ch(TEXT, 4) == ' ' && Ch(TEXT, 5) == 'x' && Ch(TEXT, 6) == NUL;
    assert Settle(TEXT, Mark(5, 0, 5), 0, false) == (Mark(5, 0, 5), false);
    assert Prepared(TEXT, sc) == sc.(mark := Mark(5, 0, 5));
    PlainX();
  }

  lemma PlainX()
    ensures ScanPlain(TEXT, 0, 0, Mark(5, 0, 5)) == PlainOk("x", Mark(6, 0, 6), Mark(6, 0, 6), false)
  {
    assert Ch(TEXT, 5) == 'x' && Ch(TEXT, 6) == NUL;
    assert PlainChars(TEXT, 0, 1, Mark(6, 0, 6), "x", Mark(6, 0, 6), "", "", "", false)
        == PlainOk("x", Mark(6, 0, 6), Mark(6, 0, 6), false);
  }

  lemma Ends(ts: Row, k: nat)
    ensures FetchNext(TEXT, Plained(ts, k)) == Ok(AtEnd(ts + [BlockEndToken, StreamEndToken], k))
    ensures Prepared(TEXT, Plained(ts, k)) == Plained(ts, k) && ActOf(TEXT, Plained(ts, k)).Drop?
  {
    var sc := Plained(ts, k);
    assert Ch(TEXT, 6) == NUL;
    assert Prepared(TEXT, sc) == sc;
    assert sc.keys[0 := None] == sc.keys && sc.indents[..0] == [];
    var u := AppendToken(sc.(mark := Mark(6, 1, 0)), BlockEndToken).(indent := -1, indents := []);
    assert UnrollIndent(sc.(mark := Mark(6, 1, 0)), -1) == u by { assert UnrollIndent(u, -1) == u; }
    assert ts + [BlockEndToken] + [StreamEndToken] == ts + [BlockEndToken, StreamEndToken];
  }

  // ---------- the two scans ----------

  const IN_PLACE: Row := [StreamStartToken, BlockMappingStartToken, KeyToken, FlowMappingStartToken, KeyToken,
    FlowMappingEndToken, ValueToken, ScalarToken("x", Plain), BlockEndToken, StreamEndToken]

  const TOO_LATE: Row := [StreamStartToken, FlowMappingStartToken, KeyToken, FlowMappingEndToken, KeyToken,
    BlockMappingStartToken, ValueToken, ScalarToken("x", Plain), BlockEndToken, StreamEndToken]

  const ONE: Row := [StreamStartToken]
  const TWO: Row := [StreamStartToken, FlowMappingStartToken]
  const THREE: Row := [StreamStartToken, FlowMappingStartToken, KeyToken]
  const FOUR: Row := [StreamStartToken, FlowMappingStartToken, KeyToken, FlowMappingEndToken]

  lemma RowsGrow()
    ensures ONE + [FlowMappingStartToken] == TWO && TWO + [KeyToken] == THREE && THREE + [FlowMappingEndToken] == FOUR
  {
  }

  /** The tokens up to the VALUE, with KEY and BLOCK-MAPPING-START put behind k tokens at least. */
  function Seven(k: nat): Row {
    PutAt(PutAt(FOUR, 1, k, KeyToken), 1, k, BlockMappingStartToken) + [ValueToken]
  }

  lemma SevenAre()
    ensures Seven(0) == IN_PLACE[..7] && Seven(2) == TOO_LATE[..7]
  {
    assert Seven(0) == [StreamStartToken, BlockMappingStartToken, KeyToken, FlowMappingStartToken, KeyToken,
                        FlowMappingEndToken, ValueToken];
    assert Seven(2) == [StreamStartToken, FlowMappingStartToken, KeyToken, FlowMappingEndToken, KeyToken,
                        BlockMappingStartToken, ValueToken];
  }

  lemma RestIs(a: Row)
    requires |a| == 10 && a[7..] == [ScalarToken("x", Plain), BlockEndToken, StreamEndToken]
    ensures a[..7] + [ScalarToken("x", Plain)] + [BlockEndToken, StreamEndToken] == a
  {
    assert a == a[..7] + a[7..];
  }

  lemma ScannedToValue()
    ensures ToEnd(TEXT, StartState) == ToEnd(TEXT, Valued(IN_PLACE[..7], 0))
  {
    hide FetchNext, ToEnd, PutAt, Seven;
    RowsGrow();
    Starts();
    ToEndStep(TEXT, StartState);
    Opens(ONE, 0);
    ToEndStep(TEXT, Begun(ONE, 0));
    Asks(TWO, 0);
    ToEndStep(TEXT, InMapping(TWO, 0));
    Closes(THREE, 0);
    ToEndStep(TEXT, Asked(THREE, 0));
    ValuesOfFour(0);
    ToEndStep(TEXT, MappingClosed(FOUR, 0));
    SevenAre();
  }

  lemma ValuesOfFour(k: nat)
    ensures FetchNext(TEXT, MappingClosed(FOUR, k)) == Ok(Valued(Seven(k), k))
  {
    hide FetchNext;
    Values(FOUR, k);
  }

  /** Handing nothing over, the scan puts KEY in front of the key. */
  lemma ScannedInPlace()
    ensures FetchToEnd(TEXT, StartState) == Ok(AtEnd(IN_PLACE, 0))
  {
    hide FetchNext, FetchToEnd;
    var ts := IN_PLACE[..7] + [ScalarToken("x", Plain)];
    ScannedToValue();
    ReadsPlain(IN_PLACE[..7], 0);
    ToEndStep(TEXT, Valued(IN_PLACE[..7], 0));
    Ends(ts, 0);
    ToEndStep(TEXT, Plained(ts, 0));
    RestIs(IN_PLACE);
  }

  lemma FetchesOn(d: Demand, sc1: State)
    requires |d.ix.numbers| == |d.sc.keys| && !Waits(d.sc) && !Ended(d.sc) && FetchNext(TEXT, d.sc) == Ok(sc1)
    ensures |IndexNext(TEXT, d.sc, d.ix).numbers| == |sc1.keys|
    ensures DeliverFrom(TEXT, d) == DeliverFrom(TEXT, Demand(sc1, IndexNext(TEXT, d.sc, d.ix)))
  {
    hide FetchNext, IndexNext;
    FetchAdvances(TEXT, d.sc);
    KeysCount(TEXT, d.sc, d.ix);
  }

  /** With no key in the index, all but two tokens are handed over, or all at the end. */
  lemma {:induction false} NothingHolds(d: Demand)
    requires |d.ix.numbers| == |d.sc.keys| && d.ix.byTok == map[] && d.sc.parsed <= |d.sc.tokens|
    ensures var sc := d.sc;
      if Ended(sc) then DeliverFrom(TEXT, d) == Scanned(sc.(parsed := |sc.tokens|), Complete)
      else if sc.parsed + 2 <= |sc.tokens| then
        DeliverFrom(TEXT, d) == DeliverFrom(TEXT, d.(sc := sc.(parsed := |sc.tokens| - 2)))
      else true
    decreases |d.sc.tokens| - d.sc.parsed
  {
    hide FetchNext, IndexNext;
    if Waits(d.sc) {
      NothingHolds(HandHead(d));
      assert HandHead(d).sc.(parsed := |d.sc.tokens|) == d.sc.(parsed := |d.sc.tokens|);
    } else if Ended(d.sc) {
      assert d.sc.(parsed := |d.sc.tokens|) == d.sc;
    }
  }

  lemma DeliveredTooLate()
    ensures ScanAll(TEXT) == Scanned(AtEnd(TOO_LATE, 10), Complete)
  {
    hide FetchNext, IndexNext, DeliverFrom, PutAt, Seven;
    var ix1, ix2, none := Index([0], map[]), Index([1, 1], map[1 := 0]), Index([1], map[]);
    RowsGrow();
    Starts();
    FetchesOn(StartDemand, Begun(ONE, 0));
    assert IndexNext(TEXT, StartState, StartDemand.ix) == ix1 by { FirstIndex(); }
    Opens(ONE, 0);
    FetchesOn(Demand(Begun(ONE, 0), ix1), InMapping(TWO, 0));
    OpenedIndex(ONE, 0);
    Asks(TWO, 0);
    FetchesOn(Demand(InMapping(TWO, 0), ix2), Asked(THREE, 0));
    AskedIndex(TWO, 0);
    FirstHanded(THREE);
    Closes(THREE, 1);
    FetchesOn(Demand(Asked(THREE, 1), ix2), MappingClosed(FOUR, 1));
    ClosedIndex(THREE, 1);
    NothingHolds(Demand(MappingClosed(FOUR, 1), none));
    ValuesOfFour(2);
    SevenAre();
    FetchesOn(Demand(MappingClosed(FOUR, 2), none), Valued(TOO_LATE[..7], 2));
    ValuedIndex(FOUR, 2);
    NothingHolds(Demand(Valued(TOO_LATE[..7], 2), none));
    PlainDelivered(none);
  }

  lemma FirstIndex()
    ensures IndexNext(TEXT, StartState, StartDemand.ix) == Index([0], map[])
  {
  }

  lemma OpenedIndex(ts: Row, k: nat)
    requires |ts| == 1
    ensures IndexNext(TEXT, Begun(ts, k), Index([0], map[])) == Index([1, 1], map[1 := 0])
  {
    hide ActOf, Prepared;
    Opens(ts, k);
    assert [0][0 := 1] + [1] == [1, 1];
  }

  lemma AskedIndex(ts: Row, k: nat)
    ensures IndexNext(TEXT, InMapping(ts, k), Index([1, 1], map[1 := 0])) == Index([1, 1], map[1 := 0])
  {
    hide ActOf, Prepared;
    Asks(ts, k);
  }

  lemma ClosedIndex(ts: Row, k: nat)
    ensures IndexNext(TEXT, Asked(ts, k), Index([1, 1], map[1 := 0])) == Index([1], map[])
  {
    hide ActOf, Prepared;
    Closes(ts, k);
    assert [1, 1][..1] == [1] && map[1 := 0] - {1} == map[];
  }

  lemma ValuedIndex(ts: Row, k: nat)
    requires |ts| >= 1
    ensures IndexNext(TEXT, MappingClosed(ts, k), Index([1], map[])) == Index([1], map[])
  {
    hide ActOf, Prepared;
    Values(ts, k);
    var none: map<nat, nat> := map[];
    assert none - {1} == none;
  }

  /** STREAM-START is no key; the bracket behind it may be one. */
  lemma FirstHanded(ts: Row)
    requires |ts| == 3 && !ts[2].StreamEndToken?
    ensures var ix := Index([1, 1], map[1 := 0]);
      DeliverFrom(TEXT, Demand(Asked(ts, 0), ix)) == DeliverFrom(TEXT, Demand(Asked(ts, 1), ix))
  {
    hide FetchNext, IndexNext;
  }

  lemma PlainDelivered(ix: Index)
    requires ix == Index([1], map[])
    ensures DeliverFrom(TEXT, Demand(Valued(TOO_LATE[..7], 5), ix)) == Scanned(AtEnd(TOO_LATE, 10), Complete)
  {
    hide FetchNext, IndexNext, DeliverFrom;
    var ts := TOO_LATE[..7] + [ScalarToken("x", Plain)];
    ReadsPlain(TOO_LATE[..7], 5);
    FetchesOn(Demand(Valued(TOO_LATE[..7], 5), ix), Plained(ts, 5));
    LastIndex(TOO_LATE[..7], 5, ts, 6);
    NothingHolds(Demand(Plained(ts, 5), ix));
    Ends(ts, 6);
    FetchesOn(Demand(Plained(ts, 6), ix), AtEnd(ts + [BlockEndToken, StreamEndToken], 6));
    RestIs(TOO_LATE);
    NothingHolds(Demand(AtEnd(TOO_LATE, 6), ix));
  }

  lemma LastIndex(ts: Row, k: nat, ts': Row, k': nat)
    ensures IndexNext(TEXT, Valued(ts, k), Index([1], map[])) == Index([1], map[])
    ensures IndexNext(TEXT, Plained(ts', k'), Index([1], map[])) == Index([1], map[])
  {
    hide ActOf, Prepared;
    ReadsPlain(ts, k);
    Ends(ts', k');
  }

  /** The same text, and other tokens: `{?}` is the first key of the one mapping, and of no mapping in the other. */
  lemma DemandMatters()
    ensures FetchToEnd(TEXT, StartState) == Ok(AtEnd(IN_PLACE, 0))
    ensures ScanAll(TEXT).ending.Complete? && ScanAll(TEXT).Tokens() == TOO_LATE && IN_PLACE != TOO_LATE
    ensures !NothingLost(TEXT, StartDemand)
  {
    hide FetchToEnd, DeliverFrom, NothingLost;
    ScannedInPlace();
    DeliveredTooLate();
    assert TOO_LATE[..10] == TOO_LATE;
    assert IN_PLACE[1] != TOO_LATE[1];
    OnDemandExactly(TEXT);
  }
}
