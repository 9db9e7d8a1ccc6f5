/**
 What every fetch of the scanner keeps, on any text: the indentation stack rises from -1, and
 the block starts and ends in the token list balance up to the blocks still open, although
 tokens are also put in the middle of the list.
 */
module ScanInvariant {
  import opened Chars
  import opened Options
  import opened Tokens
  import opened Scanner
  import Resolve
  import ScalarScan
  import NameScan

  function Delta(t: Token): int {
    if t.BlockSequenceStartToken? || t.BlockMappingStartToken? then 1
    else if t.BlockEndToken? then -1
    else 0
  }

  /** Block starts less block ends. */
  function Balance(ts: seq<Token>): int {
    if ts == [] then 0 else Balance(ts[..|ts| - 1]) + Delta(ts[|ts| - 1])
  }

  /** No prefix of the list ends more blocks than it starts. */
  predicate NeverNegative(ts: seq<Token>) {
    ts == [] || (Balance(ts) >= 0 && NeverNegative(ts[..|ts| - 1]))
  }

  lemma {:induction false} PrefixBalance(ts: seq<Token>, k: nat)
    requires NeverNegative(ts) && k <= |ts|
    ensures Balance(ts[..k]) >= 0
  {
    if k == |ts| {
      assert ts[..k] == ts;
    } else {
      PrefixBalance(ts[..|ts| - 1], k);
      assert ts[..|ts| - 1][..k] == ts[..k];
    }
  }

  lemma Appended(ts: seq<Token>, t: Token)
    ensures Balance(ts + [t]) == Balance(ts) + Delta(t)
    ensures NeverNegative(ts) && Balance(ts) + Delta(t) >= 0 ==> NeverNegative(ts + [t])
  {
    assert (ts + [t])[..|ts|] == ts;
  }

  /** A token that ends no block may be put anywhere. */
  lemma {:induction false} Inserted(a: seq<Token>, t: Token, b: seq<Token>)
    requires Delta(t) >= 0 && NeverNegative(a + b)
    ensures Balance(a + [t] + b) == Balance(a + b) + Delta(t)
    ensures NeverNegative(a + [t] + b)
    decreases |b|
  {
    if b == [] {
      assert a + [t] + b == a + [t] && a + b == a;
      if a == [] { assert Balance(a) == 0; }
      Appended(a, t);
    } else {
      var c, last := b[..|b| - 1], b[|b| - 1];
      assert (a + b)[..|a + b| - 1] == a + c;
      Inserted(a, t, c);
      Appended(a + c, last);
      Appended(a + [t] + c, last);
      assert a + b == a + c + [last] && a + [t] + b == a + [t] + c + [last];
    }
  }

  /** Rises from -1. */
  predicate Rising(levels: seq<int>) {
    && levels != [] && levels[0] == -1
    && forall i :: 1 <= i < |levels| ==> levels[i - 1] < levels[i]
  }

  predicate KeysKnown(sc: State) {
    && |sc.keys| == sc.flow + 1
    && forall i :: 0 <= i < |sc.keys| && sc.keys[i].Some? ==> sc.keys[i].value.number <= |sc.tokens|
  }

  predicate TokensMatch(sc: State) {
    NeverNegative(sc.tokens) && Balance(sc.tokens) == |sc.indents|
  }

  /** The scanner between two tokens. */
  predicate Invariant(sc: State) {
    if sc.started then Rising(sc.indents + [sc.indent]) && TokensMatch(sc) && KeysKnown(sc) && sc.parsed <= |sc.tokens|
    else sc == StartState
  }

  predicate Kept(r: Fetched) {
    r.Ok? ==> r.value.started && Invariant(r.value)
  }

  predicate Running(sc: State) {
    sc.started && Invariant(sc)
  }

  lemma {:induction false} UnrollKeepsAll(sc: State, column: int)
    requires Running(sc)
    ensures Running(UnrollIndent(sc, column))
    ensures sc.flow == 0 && column >= -1 ==> UnrollIndent(sc, column).indent <= column
    ensures UnrollIndent(sc, column).flow == sc.flow && UnrollIndent(sc, column).mark == sc.mark
    decreases |sc.indents|
  {
    if sc.flow == 0 && sc.indent > column {
      var levels := sc.indents + [sc.indent];
      if sc.indents != [] {
        var last := |sc.indents| - 1;
        var sc1 := AppendToken(sc, BlockEndToken).(indent := sc.indents[last], indents := sc.indents[..last]);
        assert sc1.indents + [sc1.indent] == sc.indents;
        forall i | 1 <= i < |sc.indents| ensures sc.indents[i - 1] < sc.indents[i] {
          assert levels[i - 1] < levels[i];
        }
        assert levels[0] == sc.indents[0];
        Appended(sc.tokens, BlockEndToken);
        UnrollKeepsAll(sc1, column);
      }
    }
  }

  lemma RollKeeps(sc: State, column: int, number: int, token: Token)
    requires Running(sc) && Delta(token) == 1 && number <= |sc.tokens|
    ensures var r := RollIndent(sc, column, number, token);
      Kept(r) && (r.Ok? ==> r.value.keys == sc.keys && r.value.flow == sc.flow && r.value.mark == sc.mark)
  {
    hide NeverNegative, Balance;
    if sc.flow == 0 && sc.indent < column {
      var levels, more := sc.indents + [sc.indent], sc.indents + [sc.indent] + [column];
      forall i | 1 <= i < |more| ensures more[i - 1] < more[i] {
        if i < |levels| { assert levels[i - 1] < levels[i]; }
      }
      assert more[0] == levels[0];
      var sc1 := sc.(indents := levels, indent := column);
      InsertKeeps(sc1, if number > -1 then number - sc.parsed else number, token);
    }
  }

  /** Wherever the token is put, the list balances as before but for the token itself. */
  lemma InsertKeeps(sc: State, position: int, token: Token)
    requires NeverNegative(sc.tokens) && Delta(token) >= 0 && sc.parsed <= |sc.tokens|
    ensures var sc1 := InsertToken(sc, position, token);
      && NeverNegative(sc1.tokens) && Balance(sc1.tokens) == Balance(sc.tokens) + Delta(token)
      && sc1.(tokens := sc.tokens) == sc && |sc1.tokens| == |sc.tokens| + 1
  {
    var k := sc.parsed + position;
    if position < 0 || k > |sc.tokens| {
      PrefixBalance(sc.tokens, |sc.tokens|);
      assert sc.tokens[..|sc.tokens|] == sc.tokens;
      Appended(sc.tokens, token);
    } else {
      assert sc.tokens[..k] + sc.tokens[k..] == sc.tokens;
      Inserted(sc.tokens[..k], token, sc.tokens[k..]);
    }
  }

  /** A token that starts or ends no block, at the end of the list. */
  lemma AppendKeeps(sc: State, token: Token)
    requires Running(sc) && Delta(token) == 0
    ensures Running(AppendToken(sc, token))
  {
    Appended(sc.tokens, token);
  }

  lemma RemoveKeeps(sc: State)
    requires Running(sc)
    ensures Kept(RemoveKey(sc))
    ensures RemoveKey(sc).Ok? ==> RemoveKey(sc).value.(keys := sc.keys) == sc
  {
  }

  lemma SaveKeeps(sc: State)
    requires Running(sc)
    ensures Kept(SaveKey(sc))
    ensures SaveKey(sc).Ok? ==> SaveKey(sc).value.(keys := sc.keys) == sc
  {
  }

  lemma {:induction false} LastIsAbove(levels: seq<int>)
    requires Rising(levels) && |levels| > 1
    ensures levels[|levels| - 1] > -1
    decreases |levels|
  {
    var last := |levels| - 1;
    assert levels[last - 1] < levels[last];
    if last > 1 { LastIsAbove(levels[..last]); }
  }

  lemma StreamEndKeeps(sc: State)
    requires Running(sc)
    ensures Kept(FetchStreamEnd(sc))
    ensures FetchStreamEnd(sc).Ok? && sc.flow == 0 ==>
      FetchStreamEnd(sc).value.indents == [] && Balance(FetchStreamEnd(sc).value.tokens) == 0
  {
    hide NeverNegative, Balance, UnrollIndent;
    var m := if sc.mark.column != 0 then Mark(sc.mark.index, sc.mark.line + 1, 0) else sc.mark;
    var u := UnrollIndent(sc.(mark := m), -1);
    UnrollKeepsAll(sc.(mark := m), -1);
    if u.indents != [] { LastIsAbove(u.indents + [u.indent]); }
    if u.indents == [] { assert Balance(u.tokens) == 0; }
    RemoveKeeps(u);
    if RemoveKey(u).Ok? {
      AppendKeeps(RemoveKey(u).value.(keyAllowed := false), StreamEndToken);
      Appended(u.tokens, StreamEndToken);
    }
  }

  lemma IndicatorKeeps(sc: State, token: Token)
    requires Running(sc) && Delta(token) == 0
    ensures Kept(FetchDocumentIndicator(sc, token))
  {
    hide NeverNegative, Balance, UnrollIndent;
    UnrollKeepsAll(sc, -1);
    var u := UnrollIndent(sc, -1);
    RemoveKeeps(u);
    if RemoveKey(u).Ok? {
      AppendKeeps(RemoveKey(u).value.(keyAllowed := false, mark := ScalarScan.Advance(sc.mark, 3)), token);
    }
  }

  lemma FlowKeeps(sc: State, token: Token)
    requires Running(sc) && Delta(token) == 0
    ensures Kept(FetchFlowStart(sc, token)) && Kept(FetchFlowEnd(sc, token)) && Kept(FetchFlowEntry(sc))
  {
    hide Running, Kept;
    FlowStartKeeps(sc, token);
    FlowEndKeeps(sc, token);
  }

  lemma FlowStartKeeps(sc: State, token: Token)
    requires Running(sc) && Delta(token) == 0
    ensures Kept(FetchFlowStart(sc, token))
  {
    hide NeverNegative, Balance, SaveKey;
    SaveKeeps(sc);
    Appended(sc.tokens, token);
  }

  lemma FlowEndKeeps(sc: State, token: Token)
    requires Running(sc) && Delta(token) == 0
    ensures Kept(FetchFlowEnd(sc, token)) && Kept(FetchFlowEntry(sc))
  {
    hide NeverNegative, Balance, RemoveKey;
    RemoveKeeps(sc);
    Appended(sc.tokens, token);
    Appended(sc.tokens, FlowEntryToken);
  }

  lemma BlockKeeps(sc: State)
    requires Running(sc)
    ensures Kept(FetchBlockEntry(sc)) && Kept(FetchKey(sc))
  {
    hide NeverNegative, Balance, RollIndent;
    RollKeeps(sc, sc.mark.column, -1, BlockSequenceStartToken);
    RollKeeps(sc, sc.mark.column, -1, BlockMappingStartToken);
    var a := RollIndent(sc, sc.mark.column, -1, BlockSequenceStartToken);
    var b := RollIndent(sc, sc.mark.column, -1, BlockMappingStartToken);
    if a.Ok? { RemoveKeeps(a.value); Appended(a.value.tokens, BlockEntryToken); }
    if b.Ok? { RemoveKeeps(b.value); Appended(b.value.tokens, KeyToken); }
  }

  lemma ValueKeeps(sc: State)
    requires Running(sc)
    ensures Kept(FetchValue(sc))
  {
    hide NeverNegative, Balance, RollIndent, InsertToken;
    var last := |sc.keys| - 1;
    if sc.keys[last].Some? && KeyValid(sc, sc.keys[last].value) {
      var key := sc.keys[last].value;
      InsertKeeps(sc, key.number - sc.parsed, KeyToken);
      var sc1 := InsertToken(sc, key.number - sc.parsed, KeyToken);
      RollKeeps(sc1, key.mark.column, key.number, BlockMappingStartToken);
      var r := RollIndent(sc1, key.mark.column, key.number, BlockMappingStartToken);
      if r.Ok? { Appended(r.value.tokens, ValueToken); }
    } else {
      var sc0 := sc.(keys := sc.keys[last := None]);
      RollKeeps(sc0, sc.mark.column, -1, BlockMappingStartToken);
      var r := RollIndent(sc0, sc.mark.column, -1, BlockMappingStartToken);
      if r.Ok? { Appended(r.value.tokens, ValueToken); }
    }
  }

  lemma ScalarKeeps(t: string, sc: State, single: bool)
    requires Running(sc)
    ensures Kept(FetchFlowScalar(t, sc, single)) && Kept(FetchPlainScalar(t, sc))
  {
    hide NeverNegative, Balance, ScalarScan.ScanFlow, ScalarScan.ScanPlain;
    SaveKeeps(sc);
    if SaveKey(sc).Ok? {
      var sc1 := SaveKey(sc).value;
      match ScalarScan.ScanFlow(t, single, sc1.mark) {
        case FlowErr(_, _) =>
        case FlowOk(value, end) =>
          AppendKeeps(sc1.(keyAllowed := false, mark := end),
                      ScalarToken(value, if single then Resolve.SingleQuoted else Resolve.DoubleQuoted));
      }
      match ScalarScan.ScanPlain(t, sc1.flow, sc1.indent, sc1.mark) {
        case PlainErr(_, _) =>
        case PlainOk(value, _, next, leading) =>
          AppendKeeps(sc1.(keyAllowed := leading, mark := next), ScalarToken(value, Resolve.Plain));
      }
    }
  }

  lemma NameKeeps(t: string, sc: State, alias: bool)
    requires Running(sc) && sc.mark.index < |t|
    ensures Kept(FetchAnchor(t, sc, alias)) && Kept(FetchTag(t, sc))
  {
    hide NeverNegative, Balance, NameScan.ScanAnchor, NameScan.ScanTag;
    SaveKeeps(sc);
    if SaveKey(sc).Ok? {
      var sc1, k := SaveKey(sc).value, sc.mark.index;
      match NameScan.ScanAnchor(t, k) {
        case Err(_) =>
        case Ok(name) =>
          var token := if alias then AliasToken(name.text) else AnchorToken(name.text);
          AppendKeeps(sc1.(keyAllowed := false, mark := ScalarScan.Advance(sc.mark, name.end - k)), token);
      }
      match NameScan.ScanTag(t, k) {
        case Err(_) =>
        case Ok(tag) =>
          AppendKeeps(sc1.(keyAllowed := false, mark := ScalarScan.Advance(sc.mark, tag.end - k)),
                      TagToken(tag.handle, tag.suffix));
      }
    }
  }

  lemma DirectiveKeeps(t: string, sc: State)
    requires Running(sc) && sc.mark.index < |t|
    ensures Kept(FetchDirective(t, sc))
  {
    hide NeverNegative, Balance, UnrollIndent, NameScan.ScanDirective;
    UnrollKeepsAll(sc, -1);
    var u := UnrollIndent(sc, -1);
    RemoveKeeps(u);
    if RemoveKey(u).Ok? && NameScan.ScanDirective(t, sc.mark).Ok? {
      var d := NameScan.ScanDirective(t, sc.mark).value;
      AppendKeeps(RemoveKey(u).value.(keyAllowed := false, mark := d.1), d.0);
    }
  }

  lemma DispatchKeeps(t: string, sc: State)
    requires Running(sc)
    ensures Kept(Dispatch(t, sc))
  {
    hide NeverNegative, Balance, Invariant, FetchStreamEnd, FetchDocumentIndicator, FetchFlowStart, FetchFlowEnd,
      FetchFlowEntry, FetchBlockEntry, FetchKey, FetchValue, FetchFlowScalar, FetchPlainScalar, FetchAnchor, FetchTag,
      FetchDirective;
    if sc.mark.index < |t| {
      NameKeeps(t, sc, true);
      NameKeeps(t, sc, false);
      DirectiveKeeps(t, sc);
    }
    StreamEndKeeps(sc);
    IndicatorKeeps(sc, DocumentStartToken);
    IndicatorKeeps(sc, DocumentEndToken);
    FlowKeeps(sc, FlowSequenceStartToken);
    FlowKeeps(sc, FlowMappingStartToken);
    FlowKeeps(sc, FlowSequenceEndToken);
    FlowKeeps(sc, FlowMappingEndToken);
    BlockKeeps(sc);
    ValueKeeps(sc);
    ScalarKeeps(t, sc, true);
    ScalarKeeps(t, sc, false);
  }

  lemma FetchKeeps(t: string, sc: State)
    requires Invariant(sc)
    ensures Kept(FetchNext(t, sc))
  {
    hide UnrollIndent, Dispatch, Settle;
    if sc.started {
      var sc1 := Settled(t, sc);
      UnrollKeepsAll(sc1, sc1.mark.column);
      DispatchKeeps(t, Prepared(t, sc));
    } else {
      assert FetchStreamStart(sc).tokens == [StreamStartToken];
      Appended([], StreamStartToken);
    }
  }

  /**
   On any text, after any number of fetched tokens: the indentation stack rises strictly from
   -1, no prefix of the tokens ends more blocks than it starts, and the starts exceed the ends
   by just the depth of the stack.
   */
  lemma {:induction false} AnyTextKeepsBalance(t: string, sc: State, n: nat)
    requires Invariant(sc)
    ensures var r := FetchMany(t, sc, n); r.Ok? ==> Invariant(r.value)
    ensures var r := FetchMany(t, sc, n); r.Ok? && r.value.started ==>
      && Rising(r.value.indents + [r.value.indent])
      && Balance(r.value.tokens) == |r.value.indents|
      && forall k :: 0 <= k <= |r.value.tokens| ==> Balance(r.value.tokens[..k]) >= 0
    decreases n
  {
    hide FetchNext;
    if n == 0 {
      if sc.started {
        forall k | 0 <= k <= |sc.tokens| ensures Balance(sc.tokens[..k]) >= 0 {
          PrefixBalance(sc.tokens, k);
        }
      }
    } else {
      FetchKeeps(t, sc);
      if FetchNext(t, sc).Ok? {
        AnyTextKeepsBalance(t, FetchNext(t, sc).value, n - 1);
      }
    }
  }
}
