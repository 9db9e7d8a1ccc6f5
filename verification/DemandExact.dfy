/**
 When the tokens handed over on demand are those of a scan that hands none over: just when no
 key is lost, that is, whenever a ':' makes a token a key, it still waits in the queue.
 */
module DemandExact {
  import opened Chars
  import opened ScalarScan
  import opened Options
  import opened Tokens
  import opened Scanner
  import opened ScanInvariant
  import opened ScanToEnd
  import opened DemandScan
  import opened DemandSafety
  import NameScan

  // ---------- two scanners side by side ----------

  /** Some keys were given up, none of them valid, and none that must be a key. */
  predicate Fresher(e: State, s: State) {
    && |s.keys| == |e.keys|
    && forall i :: 0 <= i < |e.keys| ==> s.keys[i] == e.keys[i] || GivenUp(e, s, i)
  }

  predicate GivenUp(e: State, s: State, i: nat)
    requires i < |e.keys| && i < |s.keys|
  {
    s.keys[i].None? && e.keys[i].Some? && !e.keys[i].value.required && !KeyValid(e, e.keys[i].value)
  }

  /** The same but for keys, tokens and what was handed over. */
  predicate SameBare(e: State, s: State) {
    s == e.(keys := s.keys, tokens := s.tokens, parsed := s.parsed)
  }

  predicate Alike(e: State, s: State) {
    && SameBare(e, s) && Fresher(e, s) && |s.tokens| == |e.tokens|
    && (e.tokens != [] ==> s.tokens[|s.tokens| - 1] == e.tokens[|e.tokens| - 1])
  }

  type Row = seq<Token>

  /** The same tokens were put at the end. */
  predicate Grown(a: Row, a1: Row, b: Row, b1: Row) {
    a <= a1 && b <= b1 && a1[|a|..] == b1[|b|..]
  }

  predicate BareResults(e: State, r: Fetched, s: State, q: Fetched) {
    match r
    case Err(_) => q == r
    case Ok(e1) => q.Ok? && SameBare(e1, q.value) && Grown(e.tokens, e1.tokens, s.tokens, q.value.tokens)
  }

  lemma GrownSame(a: Row, b: Row)
    ensures Grown(a, a, b, b)
  {
  }

  lemma GrownOne(a: Row, a1: Row, b: Row, b1: Row, token: Token)
    requires Grown(a, a1, b, b1)
    ensures Grown(a, a1 + [token], b, b1 + [token])
  {
    assert (a1 + [token])[|a|..] == a1[|a|..] + [token];
    assert (b1 + [token])[|b|..] == b1[|b|..] + [token];
  }

  lemma GrownSizes(a: Row, a1: Row, b: Row, b1: Row)
    requires Grown(a, a1, b, b1) && |a| == |b|
    ensures |a1| == |b1|
  {
  }

  lemma GrownOn(a: Row, a1: Row, a2: Row, b: Row, b1: Row, b2: Row)
    requires Grown(a, a1, b, b1) && Grown(a1, a2, b1, b2)
    ensures Grown(a, a2, b, b2)
  {
    assert a2[|a|..] == a1[|a|..] + a2[|a1|..];
    assert b2[|b|..] == b1[|b|..] + b2[|b1|..];
  }

  lemma RemoveAlike(e: State, s: State)
    requires SameBare(e, s) && Fresher(e, s) && |s.tokens| == |e.tokens|
    ensures BareResults(e, RemoveKey(e), s, RemoveKey(s)) && BareResults(e, SaveKey(e), s, SaveKey(s))
  {
    if e.keys != [] {
      var last := |e.keys| - 1;
      assert s.keys[last] == e.keys[last] || GivenUp(e, s, last);
    }
  }

  lemma {:induction false} UnrollAlike(e: State, s: State, column: int)
    requires SameBare(e, s)
    ensures SameBare(UnrollIndent(e, column), UnrollIndent(s, column))
    ensures Grown(e.tokens, UnrollIndent(e, column).tokens, s.tokens, UnrollIndent(s, column).tokens)
    decreases |e.indents|
  {
    hide Grown;
    if e.flow > 0 || e.indent <= column || e.indents == [] {
      GrownSame(e.tokens, s.tokens);
    } else {
      var last := |e.indents| - 1;
      var e1 := AppendToken(e, BlockEndToken).(indent := e.indents[last], indents := e.indents[..last]);
      var s1 := AppendToken(s, BlockEndToken).(indent := s.indents[last], indents := s.indents[..last]);
      UnrollAlike(e1, s1, column);
      GrownSame(e.tokens, s.tokens);
      GrownOne(e.tokens, e.tokens, s.tokens, s.tokens, BlockEndToken);
      GrownOn(e.tokens, e1.tokens, UnrollIndent(e, column).tokens, s.tokens, s1.tokens, UnrollIndent(s, column).tokens);
    }
  }

  lemma RollAlike(e: State, s: State, column: int, token: Token)
    requires SameBare(e, s)
    ensures BareResults(e, RollIndent(e, column, -1, token), s, RollIndent(s, column, -1, token))
  {
    hide Grown;
    GrownSame(e.tokens, s.tokens);
    GrownOne(e.tokens, e.tokens, s.tokens, s.tokens, token);
  }

  lemma ClosingAlike(t: string, e: State, s: State, token: Token)
    requires SameBare(e, s) && Fresher(e, s) && |s.tokens| == |e.tokens|
    ensures BareResults(e, FetchStreamEnd(e), s, FetchStreamEnd(s))
    ensures BareResults(e, FetchDocumentIndicator(e, token), s, FetchDocumentIndicator(s, token))
    ensures e.mark.index < |t| ==> BareResults(e, FetchDirective(t, e), s, FetchDirective(t, s))
  {
    hide BareResults, UnrollIndent, RemoveKey, Fresher;
    EndAlike(e, s);
    IndicatorAlike(e, s, token);
    if e.mark.index < |t| { DirectiveAlike(t, e, s); }
  }

  lemma EndAlike(e: State, s: State)
    requires SameBare(e, s) && Fresher(e, s) && |s.tokens| == |e.tokens|
    ensures BareResults(e, FetchStreamEnd(e), s, FetchStreamEnd(s))
  {
    hide UnrollIndent, RemoveKey, Grown;
    var m := if e.mark.column != 0 then Mark(e.mark.index, e.mark.line + 1, 0) else e.mark;
    var e1, s1 := RemoveKey(UnrollIndent(e.(mark := m), -1)), RemoveKey(UnrollIndent(s.(mark := m), -1));
    ClosedAlike(e.(mark := m), s.(mark := m));
    if e1.Ok? { GrownOne(e.tokens, e1.value.tokens, s.tokens, s1.value.tokens, StreamEndToken); }
  }

  lemma IndicatorAlike(e: State, s: State, token: Token)
    requires SameBare(e, s) && Fresher(e, s) && |s.tokens| == |e.tokens|
    ensures BareResults(e, FetchDocumentIndicator(e, token), s, FetchDocumentIndicator(s, token))
  {
    hide UnrollIndent, RemoveKey, Grown;
    var e2, s2 := RemoveKey(UnrollIndent(e, -1)), RemoveKey(UnrollIndent(s, -1));
    ClosedAlike(e, s);
    if e2.Ok? { GrownOne(e.tokens, e2.value.tokens, s.tokens, s2.value.tokens, token); }
  }

  lemma DirectiveAlike(t: string, e: State, s: State)
    requires SameBare(e, s) && Fresher(e, s) && |s.tokens| == |e.tokens| && e.mark.index < |t|
    ensures BareResults(e, FetchDirective(t, e), s, FetchDirective(t, s))
  {
    hide UnrollIndent, RemoveKey, NameScan.ScanDirective, Grown;
    var e2, s2 := RemoveKey(UnrollIndent(e, -1)), RemoveKey(UnrollIndent(s, -1));
    ClosedAlike(e, s);
    if e2.Ok? && NameScan.ScanDirective(t, e.mark).Ok? {
      GrownOne(e.tokens, e2.value.tokens, s.tokens, s2.value.tokens, NameScan.ScanDirective(t, e.mark).value.0);
    }
  }

  lemma ClosedAlike(e: State, s: State)
    requires SameBare(e, s) && |s.tokens| == |e.tokens| && |e.keys| == |s.keys|
    requires forall i :: 0 <= i < |e.keys| ==>
      s.keys[i] == e.keys[i] || (s.keys[i].None? && e.keys[i].Some? && !e.keys[i].value.required)
    ensures BareResults(e, RemoveKey(UnrollIndent(e, -1)), s, RemoveKey(UnrollIndent(s, -1)))
  {
    hide UnrollIndent, Grown;
    UnrollAlike(e, s, -1);
    UnrollExtends(e, -1);
    UnrollExtends(s, -1);
  }

  lemma FlowAlike(e: State, s: State, token: Token)
    requires SameBare(e, s) && Fresher(e, s) && |s.tokens| == |e.tokens|
    ensures BareResults(e, FetchFlowStart(e, token), s, FetchFlowStart(s, token))
    ensures BareResults(e, FetchFlowEnd(e, token), s, FetchFlowEnd(s, token))
    ensures BareResults(e, FetchFlowEntry(e), s, FetchFlowEntry(s))
  {
    hide RemoveKey, SaveKey, Grown;
    RemoveDid(e);
    RemoveDid(s);
    RemoveAlike(e, s);
    GrownSame(e.tokens, s.tokens);
    GrownOne(e.tokens, e.tokens, s.tokens, s.tokens, token);
    GrownOne(e.tokens, e.tokens, s.tokens, s.tokens, FlowEntryToken);
  }

  lemma BlockAlike(e: State, s: State)
    requires SameBare(e, s) && Fresher(e, s) && |s.tokens| == |e.tokens|
    ensures BareResults(e, FetchBlockEntry(e), s, FetchBlockEntry(s))
    ensures BareResults(e, FetchKey(e), s, FetchKey(s))
  {
    hide RollIndent, RemoveKey, Grown;
    RolledAlike(e, s, BlockSequenceStartToken, BlockEntryToken);
    RolledAlike(e, s, BlockMappingStartToken, KeyToken);
  }

  lemma RolledAlike(e: State, s: State, token: Token, next: Token)
    requires SameBare(e, s) && Fresher(e, s) && |s.tokens| == |e.tokens|
    ensures var a, b := RollIndent(e, e.mark.column, -1, token), RollIndent(s, s.mark.column, -1, token);
      match a {
        case Err(_) => b == a
        case Ok(e1) =>
          && b.Ok?
          && var x, y := RemoveKey(e1), RemoveKey(b.value);
             match x {
               case Err(_) => y == x
               case Ok(e2) =>
                 && y.Ok? && SameBare(e2, y.value)
                 && Grown(e.tokens, e2.tokens + [next], s.tokens, y.value.tokens + [next])
             }
      }
  {
    hide Grown, RemoveKey, RollIndent;
    var a, b := RollIndent(e, e.mark.column, -1, token), RollIndent(s, s.mark.column, -1, token);
    RollAlike(e, s, e.mark.column, token);
    if a.Ok? {
      RollAppends(e, e.mark.column, token);
      RollAppends(s, s.mark.column, token);
      RollStands(e, e.mark.column, -1, token);
      assert forall i :: 0 <= i < |e.keys| && GivenUp(e, s, i) ==> GivenUp(a.value, b.value, i);
      GrownSizes(e.tokens, a.value.tokens, s.tokens, b.value.tokens);
      RemoveAlike(a.value, b.value);
      if RemoveKey(a.value).Ok? {
        RemoveDid(a.value);
        RemoveDid(b.value);
        GrownOne(e.tokens, a.value.tokens, s.tokens, b.value.tokens, next);
      }
    }
  }

  lemma ScalarAlike(t: string, e: State, s: State, single: bool, alias: bool)
    requires SameBare(e, s) && Fresher(e, s) && |s.tokens| == |e.tokens|
    ensures BareResults(e, FetchFlowScalar(t, e, single), s, FetchFlowScalar(t, s, single))
    ensures BareResults(e, FetchPlainScalar(t, e), s, FetchPlainScalar(t, s))
    ensures e.mark.index < |t| ==>
      && BareResults(e, FetchAnchor(t, e, alias), s, FetchAnchor(t, s, alias))
      && BareResults(e, FetchTag(t, e), s, FetchTag(t, s))
  {
    hide SaveKey, ScanFlow, ScanPlain, NameScan.ScanAnchor, NameScan.ScanTag, Grown;
    RemoveDid(e);
    RemoveDid(s);
    RemoveAlike(e, s);
    forall token ensures Grown(e.tokens, e.tokens + [token], s.tokens, s.tokens + [token]) {
      GrownSame(e.tokens, s.tokens);
      GrownOne(e.tokens, e.tokens, s.tokens, s.tokens, token);
    }
  }

  // ---------- a ':' behind a key ----------

  /** Some token handed over is another one than the scan without handing has there. */
  predicate DifferAt(a: Row, b: Row, j: nat) {
    j < |a| && j < |b| && Starter(a[j]) && !Starter(b[j])
  }

  ghost predicate Apart(e: State, s: State) {
    exists j: nat :: j < s.parsed && DifferAt(e.tokens, s.tokens, j)
  }

  /** A token that starts something comes in front of another, in one list and perhaps not in the other. */
  lemma PutApart(a: Row, b: Row, n: nat, parsed: nat, token: Token, j: nat)
    requires |a| == |b| && n < |a| && Starter(token) && (n < parsed ==> !Starter(b[n]))
    requires n < parsed || (j < parsed && DifferAt(a, b, j))
    ensures DifferAt(PutAt(a, n, 0, token), PutAt(b, n, parsed, token), if n < parsed then n else j)
  {
  }

  lemma PutSizes(a: Row, n: nat, parsed: nat, token: Token)
    requires n <= |a|
    ensures |PutAt(a, n, parsed, token)| == |a| + 1
    ensures n < |a| && n < parsed ==> PutAt(a, n, parsed, token)[n] == a[n]
  {
  }

  lemma PutsDiffer(a: Row, b: Row, n: nat, parsed: nat, both: bool, j: nat)
    requires |a| == |b| && n < |a| && (n < parsed ==> !Starter(b[n]))
    requires n < parsed || (j < parsed && DifferAt(a, b, j))
    ensures DifferAt(Puts(a, n, 0, both), Puts(b, n, parsed, both), if n < parsed then n else j)
  {
    hide PutAt;
    var a1, b1 := PutAt(a, n, 0, KeyToken), PutAt(b, n, parsed, KeyToken);
    PutApart(a, b, n, parsed, KeyToken, j);
    PutSizes(a, n, 0, KeyToken);
    PutSizes(b, n, parsed, KeyToken);
    if both { PutApart(a1, b1, n, parsed, BlockMappingStartToken, if n < parsed then n else j); }
  }

  lemma PutsEnd(a: Row, b: Row, n: nat, parsed: nat, both: bool)
    requires |a| == |b| && n <= |a|
    ensures SameLast(Puts(a, n, 0, both), Puts(b, n, parsed, both))
    ensures a == b && n >= parsed ==> Puts(a, n, 0, both) == Puts(b, n, parsed, both)
  {
  }

  predicate SameLast(a: Row, b: Row) {
    |a| == |b| && (a != [] ==> a[|a| - 1] == b[|b| - 1])
  }

  lemma ValueBare(e: State, s: State)
    requires SameBare(e, s) && Fresher(e, s) && |s.tokens| == |e.tokens| && e.keys != []
    ensures match FetchValue(e) {
      case Err(_) => FetchValue(s) == FetchValue(e)
      case Ok(e1) => FetchValue(s).Ok? && SameBare(e1, FetchValue(s).value)
    }
    ensures !ValidKey(e) ==> BareResults(e, FetchValue(e), s, FetchValue(s))
    ensures ValidKey(e) <==> ValidKey(s)
    ensures ValidKey(e) ==> s.keys[|s.keys| - 1] == e.keys[|e.keys| - 1]
  {
    hide RollIndent, Grown;
    var last := |e.keys| - 1;
    assert s.keys[last] == e.keys[last] || GivenUp(e, s, last);
    if ValidKey(e) {
      var key := e.keys[last].value;
      RollBare(InsertToken(e, key.number - e.parsed, KeyToken), InsertToken(s, key.number - s.parsed, KeyToken),
               key.mark.column, key.number, BlockMappingStartToken);
    } else {
      var e0, s0 := e.(keys := e.keys[last := None]), s.(keys := s.keys[last := None]);
      RollAlike(e0, s0, e.mark.column, BlockMappingStartToken);
      var a, b := RollIndent(e0, e.mark.column, -1, BlockMappingStartToken),
                  RollIndent(s0, e.mark.column, -1, BlockMappingStartToken);
      if a.Ok? { GrownOne(e.tokens, a.value.tokens, s.tokens, b.value.tokens, ValueToken); }
    }
  }

  lemma RollBare(e: State, s: State, column: int, number: int, token: Token)
    requires SameBare(e, s)
    ensures var a, b := RollIndent(e, column, number, token), RollIndent(s, column, number, token);
      match a {
        case Err(_) => b == a
        case Ok(e1) => b.Ok? && SameBare(e1, b.value)
      }
  {
    hide InsertToken;
    if e.flow == 0 && e.indent < column {
      var e1 := e.(indents := e.indents + [e.indent], indent := column);
      var s1 := s.(indents := s.indents + [s.indent], indent := column);
      InsertBare(e1, if number > -1 then number - e.parsed else number, token);
      InsertBare(s1, if number > -1 then number - s.parsed else number, token);
    }
  }

  lemma InsertBare(sc: State, position: int, token: Token)
    ensures SameBare(sc, InsertToken(sc, position, token)) && InsertToken(sc, position, token).keys == sc.keys
    ensures InsertToken(sc, position, token).parsed == sc.parsed
  {
  }

  /** What becomes of the tokens: the same, or still apart, or apart from now on. */
  lemma ValueTokens(e: State, s: State)
    requires Alike(e, s) && e.parsed == 0 && ValidKey(e) && ValidKey(s) && KeysPlaced(s)
    requires s.keys[|s.keys| - 1] == e.keys[|e.keys| - 1]
    requires FetchValue(e).Ok? && FetchValue(s).Ok?
    ensures var n, e1, s1 := s.keys[|s.keys| - 1].value.number, FetchValue(e).value, FetchValue(s).value;
      && SameLast(e1.tokens, s1.tokens)
      && (e.tokens == s.tokens && n >= s.parsed ==> e1.tokens == s1.tokens)
      && (n < s.parsed || Apart(e, s) ==> Apart(e1, s1))
  {
    hide FetchValue, Puts, DifferAt, KeyValid;
    var n, e1, s1 := s.keys[|s.keys| - 1].value.number, FetchValue(e).value, FetchValue(s).value;
    ValueDid(e);
    ValueDid(s);
    assert Placed(s, s.keys[|s.keys| - 1].value);
    PutsEnd(e.tokens, s.tokens, n, s.parsed, BeginsMapping(s));
    if n < s.parsed || Apart(e, s) {
      var j: nat :| n < s.parsed || (j < s.parsed && DifferAt(e.tokens, s.tokens, j));
      PutsDiffer(e.tokens, s.tokens, n, s.parsed, BeginsMapping(s), j);
      assert DifferAt(e1.tokens, s1.tokens, if n < s.parsed then n else j);
    }
  }

  // ---------- one fetch ----------

  lemma DispatchAlike(t: string, e: State, s: State)
    requires SameBare(e, s) && Fresher(e, s) && |s.tokens| == |e.tokens| && e.keys != []
    ensures match Dispatch(t, e) {
      case Err(_) => Dispatch(t, s) == Dispatch(t, e)
      case Ok(e1) => Dispatch(t, s).Ok? && SameBare(e1, Dispatch(t, s).value)
    }
    ensures !(ActOf(t, e).Use? && ValidKey(e)) ==> BareResults(e, Dispatch(t, e), s, Dispatch(t, s))
    ensures ActOf(t, e) == ActOf(t, s)
    ensures ActOf(t, e).Use? ==> Dispatch(t, e) == FetchValue(e) && Dispatch(t, s) == FetchValue(s)
  {
    hide FetchStreamEnd, FetchDocumentIndicator, FetchFlowStart, FetchFlowEnd, FetchFlowEntry, FetchBlockEntry,
      FetchKey, FetchValue, FetchFlowScalar, FetchPlainScalar, FetchAnchor, FetchTag, FetchDirective, StartsPlain,
      DocIndicatorAt, Grown, Fresher, ValidKey;
    var c := Ch(t, e.mark.index);
    if c == NUL || DocIndicatorAt(t, e.mark) || c == '%' {
      ClosingAlike(t, e, s, if c == '-' then DocumentStartToken else DocumentEndToken);
      ScalarAlike(t, e, s, true, true);
    } else if c == '[' || c == '{' || c == ']' || c == '}' || c == ',' {
      FlowAlike(e, s, BracketToken(c));
    } else if ActOf(t, e).Use? {
      ValueBare(e, s);
      UseIsValue(t, e);
      UseIsValue(t, s);
    } else {
      BlockAlike(e, s);
      ScalarAlike(t, e, s, c == '\'', c == '*');
    }
  }

  lemma UseIsValue(t: string, sc: State)
    requires ActOf(t, sc).Use?
    ensures Dispatch(t, sc) == FetchValue(sc)
  {
    hide FetchValue;
  }

  function BracketToken(c: char): Token {
    if c == '[' then FlowSequenceStartToken
    else if c == '{' then FlowMappingStartToken
    else if c == ']' then FlowSequenceEndToken
    else FlowMappingEndToken
  }

  lemma FresherOn(e: State, s: State, e1: State, s1: State, act: Act)
    requires SameBare(e, s) && Fresher(e, s) && |s.tokens| == |e.tokens|
    requires Did(act, e, Ok(e1)) && Did(act, s, Ok(s1)) && Onward(e.mark, e1.mark)
    ensures Fresher(e1, s1)
  {
    forall i | 0 <= i < |e1.keys| ensures s1.keys[i] == e1.keys[i] || GivenUp(e1, s1, i) {
      if i < |e.keys| { assert s.keys[i] == e.keys[i] || GivenUp(e, s, i); }
    }
  }

  lemma GrownAlike(a: Row, a1: Row, b: Row, b1: Row, k: nat)
    requires Grown(a, a1, b, b1) && |a| == |b| && |a1| > |a|
    ensures SameLast(a1, b1) && (a == b ==> a1 == b1)
    ensures k < |a| && DifferAt(a, b, k) ==> DifferAt(a1, b1, k)
  {
    assert a1 == a + a1[|a|..] && b1 == b + b1[|b|..];
    assert a1[|a|..][|a1| - |a| - 1] == b1[|b|..][|b1| - |b| - 1];
  }

  lemma GrownApart(e: State, e1: State, s: State, s1: State)
    requires Grown(e.tokens, e1.tokens, s.tokens, s1.tokens) && |e.tokens| == |s.tokens| && |e1.tokens| > |e.tokens|
    requires s1.parsed == s.parsed
    ensures SameLast(e1.tokens, s1.tokens) && (e.tokens == s.tokens ==> e1.tokens == s1.tokens)
    ensures Apart(e, s) ==> Apart(e1, s1)
  {
    hide Grown;
    GrownAlike(e.tokens, e1.tokens, s.tokens, s1.tokens, 0);
    if Apart(e, s) {
      var j: nat :| j < s.parsed && DifferAt(e.tokens, s.tokens, j);
      GrownAlike(e.tokens, e1.tokens, s.tokens, s1.tokens, j);
    }
  }

  lemma DidMore(act: Act, sc: State, sc1: State)
    requires Did(act, sc, Ok(sc1)) && (act.Use? ==> !ValidKey(sc))
    ensures Extends(sc, sc1)
  {
  }

  /** Between the tokens, both are where the other is. */
  lemma PreparedAlike(t: string, e: State, s: State)
    requires SameBare(e, s) && Fresher(e, s) && |s.tokens| == |e.tokens|
    ensures var p, q := Prepared(t, e), Prepared(t, s);
      && SameBare(p, q) && Fresher(p, q) && |q.tokens| == |p.tokens| && q.parsed == s.parsed && p.parsed == e.parsed
      && p.keys == e.keys && q.keys == s.keys
      && Grown(e.tokens, p.tokens, s.tokens, q.tokens)
  {
    hide UnrollIndent, Settle, Grown;
    var p, q := Prepared(t, e), Prepared(t, s);
    UnrollAlike(Settled(t, e), Settled(t, s), Settled(t, e).mark.column);
    UnrollExtends(Settled(t, e), Settled(t, e).mark.column);
    UnrollExtends(Settled(t, s), Settled(t, s).mark.column);
    PreparedStands(t, e);
    GrownSizes(e.tokens, p.tokens, s.tokens, q.tokens);
    forall i | 0 <= i < |e.keys| ensures q.keys[i] == p.keys[i] || GivenUp(p, q, i) {
      assert s.keys[i] == e.keys[i] || GivenUp(e, s, i);
    }
  }

  lemma PreparedApart(t: string, e: State, s: State)
    requires SameBare(e, s) && Fresher(e, s) && |s.tokens| == |e.tokens|
    ensures e.tokens == s.tokens ==> Prepared(t, e).tokens == Prepared(t, s).tokens
    ensures Apart(e, s) ==> Apart(Prepared(t, e), Prepared(t, s))
    ensures SameLast(e.tokens, s.tokens) ==> SameLast(Prepared(t, e).tokens, Prepared(t, s).tokens)
  {
    hide Grown, Prepared;
    var p, q := Prepared(t, e), Prepared(t, s);
    PreparedAlike(t, e, s);
    assert |q.tokens| == |p.tokens|;
    if |p.tokens| > |e.tokens| {
      GrownApart(e, p, s, q);
    } else {
      GrownNothing(e.tokens, p.tokens, s.tokens, q.tokens);
    }
  }

  lemma GrownNothing(a: Row, a1: Row, b: Row, b1: Row)
    requires Grown(a, a1, b, b1) && |a| == |b| && |a1| <= |a|
    ensures a1 == a && b1 == b
  {
  }

  /** The key behind which the ':' here comes has been handed over. */
  predicate KeyGone(t: string, p: State) {
    ActOf(t, p).Use? && ValidKey(p) && p.keys[|p.keys| - 1].value.number < p.parsed
  }

  /** The ':' that comes next belongs to a key whose token has been handed over. */
  predicate LosesKey(t: string, sc: State) {
    sc.started && KeyGone(t, Prepared(t, sc))
  }

  ghost predicate AlikeResults(t: string, e: State, r: Fetched, s: State, q: Fetched) {
    match r
    case Err(_) => q == r
    case Ok(e1) =>
      && q.Ok? && Alike(e1, q.value) && e1.parsed == e.parsed && q.value.parsed == s.parsed
      && (e.tokens == s.tokens && !LosesKey(t, s) ==> e1.tokens == q.value.tokens)
      && (LosesKey(t, s) || Apart(e, s) ==> Apart(e1, q.value))
  }

  /** One fetch of both. */
  lemma LockStep(t: string, e: State, s: State)
    requires Alike(e, s) && e.parsed == 0 && Running(s) && KeysPlaced(s)
    ensures AlikeResults(t, e, FetchNext(t, e), s, FetchNext(t, s))
  {
    hide Dispatch, Prepared, Fresher, Grown, KeysPlaced, ActOf, ValidKey, Onward, Invariant, Apart;
    assert e.keys != [] by { RunningHasKeys(s); SameCount(e, s); }
    PreparedAlike(t, e, s);
    PreparedApart(t, e, s);
    BetweenTokens(t, s);
    PlacedOn(s, Prepared(t, s));
    DispatchStep(t, Prepared(t, e), Prepared(t, s));
  }

  lemma DispatchStep(t: string, p: State, q: State)
    requires Alike(p, q) && p.parsed == 0 && KeysPlaced(q) && p.started && p.keys != []
    ensures match Dispatch(t, p) {
      case Err(_) => Dispatch(t, q) == Dispatch(t, p)
      case Ok(e1) =>
        && Dispatch(t, q).Ok?
        && var s1 := Dispatch(t, q).value;
          && Alike(e1, s1) && e1.parsed == p.parsed && s1.parsed == q.parsed
          && (p.tokens == q.tokens && !KeyGone(t, q) ==> e1.tokens == s1.tokens)
          && (KeyGone(t, q) || Apart(p, q) ==> Apart(e1, s1))
    }
  {
    hide Dispatch, Fresher, Grown, KeysPlaced, ActOf, Did, ValidKey, Onward, Apart, FetchValue;
    DispatchAlike(t, p, q);
    if Dispatch(t, p).Ok? {
      var act, e1, s1 := ActOf(t, p), Dispatch(t, p).value, Dispatch(t, q).value;
      DispatchDid(t, p);
      DispatchDid(t, q);
      DispatchOnward(t, p);
      FresherOn(p, q, e1, s1, act);
      KeptParsed(act, p, e1);
      KeptParsed(act, q, s1);
      if act.Use? { ValueBare(p, q); }
      if act.Use? && ValidKey(p) {
        ValueTokens(p, q);
      } else {
        DidMore(act, p, e1);
        DidMore(act, q, s1);
        GrownApart(p, e1, q, s1);
      }
    }
  }

  lemma RunningHasKeys(s: State)
    requires Running(s)
    ensures s.keys != []
  {
  }

  lemma SameCount(e: State, s: State)
    requires Fresher(e, s)
    ensures |e.keys| == |s.keys|
  {
  }

  // ---------- the whole run ----------

  /**
   At each ':' behind a simple key, the key's token still waits; and no token that has to be a
   key is found too far back when it comes to the head.
   */
  predicate NothingLost(t: string, d: Demand)
    requires |d.ix.numbers| == |d.sc.keys|
    decreases Left(t, d.sc.mark), if d.sc.started then 0 else 1, if Ended(d.sc) then 0 else 1,
      if d.sc.parsed <= |d.sc.tokens| then |d.sc.tokens| - d.sc.parsed else 0
  {
    var sc := d.sc;
    if Ended(sc) && sc.parsed >= |sc.tokens| then true
    else if Waits(sc) && !CheckHead(d).Held? then CheckHead(d).Free? && NothingLost(t, HandHead(d))
    else if Ended(sc) then false
    else
      && !LosesKey(t, sc)
      && match FetchNext(t, sc)
         case Err(_) => true
         case Ok(sc1) =>
           FetchAdvances(t, sc);
           KeysCount(t, sc, d.ix);
           NothingLost(t, Demand(sc1, IndexNext(t, sc, d.ix)))
  }

  function ToEnd(t: string, e: State): Fetched {
    if Ended(e) then Ok(e) else FetchToEnd(t, e)
  }

  lemma StartLock(t: string)
    ensures AlikeResults(t, StartState, FetchNext(t, StartState), StartState, FetchNext(t, StartState))
  {
  }

  lemma SameEnd(e: State, s: State)
    requires SameLast(e.tokens, s.tokens)
    ensures Ended(e) <==> Ended(s)
  {
  }

  /** A key given up at the head is one that the other scanner has no use for. */
  lemma HandAlike(e: State, d: Demand)
    requires Alike(e, d.sc) && CheckHead(d).Free?
    ensures var s := HandHead(d).sc;
      Alike(e, s) && s.tokens == d.sc.tokens && (Apart(e, d.sc) ==> Apart(e, s))
  {
    var s := HandHead(d).sc;
    forall i | 0 <= i < |e.keys| ensures s.keys[i] == e.keys[i] || GivenUp(e, s, i) {
      assert d.sc.keys[i] == e.keys[i] || GivenUp(e, d.sc, i);
    }
    if Apart(e, d.sc) {
      var j: nat :| j < d.sc.parsed && DifferAt(e.tokens, d.sc.tokens, j);
      assert j < s.parsed && DifferAt(e.tokens, s.tokens, j);
    }
  }

  /** What the tokens that were handed over have to do with those of the other scan. */
  predicate Agrees(t: string, g: Fetched, r: Scanned, same: bool) {
    match g
    case Err(e) => r.ending.Failed? && (same ==> r.ending.error == e)
    case Ok(end) => same <==> (r.ending.Complete? && r.Tokens() == end.tokens)
  }

  lemma {:induction false} DeliverLock(t: string, e: State, d: Demand)
    requires Good(t, d) && |d.ix.numbers| == |d.sc.keys| && Alike(e, d.sc) && e.parsed == 0
    requires e.tokens == d.sc.tokens || Apart(e, d.sc)
    ensures Agrees(t, ToEnd(t, e), DeliverFrom(t, d), e.tokens == d.sc.tokens && NothingLost(t, d))
    decreases Left(t, d.sc.mark), if d.sc.started then 0 else 1, if Ended(d.sc) then 0 else 1,
      if d.sc.parsed <= |d.sc.tokens| then |d.sc.tokens| - d.sc.parsed else 0
  {
    hide FetchNext, IndexNext, AtTheEnd, IndexOk, KeysPlaced, Invariant, CheckHead, Fresher, FetchToEnd, LosesKey;
    var sc := d.sc;
    ParsedWithin(sc);
    HeadIsInSlots(t, d);
    SameEnd(e, sc);
    if Ended(sc) && sc.parsed >= |sc.tokens| {
      AllHanded(e, sc);
    } else if Waits(sc) && !CheckHead(d).Held? {
      if CheckHead(d).Free? {
        HandGood(t, d);
        HandMark(d);
        HandAlike(e, d);
        DeliverLock(t, e, HandHead(d));
      } else {
        FailsLater(t, e, d);
      }
    } else if Ended(sc) {
      NothingHeldAtEnd(t, d);
      assert false;
    } else {
      FetchLocked(t, e, d);
      FetchAdvances(t, sc);
      FetchAdvances(t, e);
      ToEndStep(t, e);
      if FetchNext(t, sc).Ok? {
        FetchGood(t, d);
        KeysCount(t, sc, d.ix);
        DeliverLock(t, FetchNext(t, e).value, Demand(FetchNext(t, sc).value, IndexNext(t, sc, d.ix)));
      }
    }
  }

  lemma ToEndStep(t: string, e: State)
    requires !Ended(e)
    ensures match FetchNext(t, e) {
      case Err(x) => ToEnd(t, e) == Err(x)
      case Ok(e1) => ToEnd(t, e) == ToEnd(t, e1)
    }
  {
    hide FetchNext;
    FetchAdvances(t, e);
  }

  lemma FetchLocked(t: string, e: State, d: Demand)
    requires Good(t, d) && Alike(e, d.sc) && e.parsed == 0
    ensures AlikeResults(t, e, FetchNext(t, e), d.sc, FetchNext(t, d.sc))
  {
    hide FetchNext, AtTheEnd, IndexOk;
    if d.sc.started {
      LockStep(t, e, d.sc);
    } else {
      assert e == StartState;
      StartLock(t);
    }
  }

  /** With all tokens handed over, those are the tokens. */
  lemma AllHanded(e: State, sc: State)
    requires sc.parsed == |sc.tokens| && (e.tokens == sc.tokens || Apart(e, sc))
    ensures Scanned(sc, Complete).Tokens() == sc.tokens
    ensures Apart(e, sc) ==> e.tokens != sc.tokens
  {
    assert sc.tokens[..|sc.tokens|] == sc.tokens;
  }

  /** A key found too late is an error here; the other scan may go on. */
  lemma FailsLater(t: string, e: State, d: Demand)
    requires |d.ix.numbers| == |d.sc.keys| && CheckHead(d).Late? && Waits(d.sc)
    requires !(Ended(d.sc) && d.sc.parsed >= |d.sc.tokens|)
    ensures DeliverFrom(t, d) == Scanned(d.sc, Failed(MissingColon)) && !NothingLost(t, d)
  {
  }

  /**
   On any text: what is handed over on demand are the tokens of the scan that hands nothing
   over, if and only if no key is lost. If that scan fails, so does this one, and unless a key
   is lost, with the same error.
   */
  lemma OnDemandExactly(t: string)
    ensures match FetchToEnd(t, StartState) {
      case Err(e) =>
        ScanAll(t).ending.Failed? && (NothingLost(t, StartDemand) ==> ScanAll(t).ending == Failed(e))
      case Ok(end) =>
        NothingLost(t, StartDemand) <==> ScanAll(t).ending.Complete? && ScanAll(t).Tokens() == end.tokens
    }
  {
    hide FetchToEnd, DeliverFrom, NothingLost;
    StartIsGood(t);
    DeliverLock(t, StartState, StartDemand);
  }
}
