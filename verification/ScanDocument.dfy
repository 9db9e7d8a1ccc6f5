/**
 Block layout round trip: scanning what the emitter wrote for a JSON tree gives the tokens
 of that tree. Blocks open and close exactly where the collections do, however deep the
 nesting up to the scanner's limit, compact "- - x" and "- k: v" included.
 */
module ScanDocument {
  import opened Chars
  import opened Pens
  import opened Analysis
  import opened ScalarWriters
  import opened ScalarScan
  import opened Options
  import opened Resolve
  import opened Tokens
  import opened Layout
  import opened Scanner
  import opened PlainRoundTrip
  import opened LayoutTokens
  import opened KeyWidth
  import opened ScanSteps
  import SingleRoundTrip
  import DoubleRoundTrip

  /** The scanner is back between tokens at q; a key it may have saved is of no more use. */
  ghost predicate Rest(t: string, sc: State, q: Pen) {
    && At(t, sc, q, false) && IdleKey(sc)
    && (sc.keys[0].Some? ==> sc.keys[0].value.mark.line <= q.line)
  }

  /** What follows r is a new line in column ind, and some text there. */
  lemma NextLine(t: string, r: Pen, ind: int, parent: int)
    requires !r.indention && 0 <= ind <= parent && WriteIndent(r, ind).out <= t
    requires !BlankOrBreak(Ch(t, |WriteIndent(r, ind).out|))
    ensures Stops(t, r, parent, ind, true)
    ensures Settle(t, MarkOf(r), 0, false) == (MarkOf(WriteIndent(r, ind)), true)
  {
    var q := WriteIndent(r, ind);
    assert q.out == r.out + ("\n" + Spaces(ind));
    ReadsAfter(t, r.out, "\n" + Spaces(ind));
    ReadsPart(t, |r.out|, "\n", Spaces(ind));
    ReadsFirst(t, |r.out|, "\n");
    SettleIndent(t, r, ind, false);
    assert MarkOf(q) == Advance(SkipLine(t, MarkOf(r)), ind);
  }

  lemma StopsDeeper(t: string, q: Pen, a: int, b: int, n: nat)
    requires Stops(t, q, a, n, true) && a <= b
    ensures Stops(t, q, b, n, true)
  {
  }

  // ---------- keys ----------

  ghost function KeyState(sc: State, ind: int, key: Token, k: Pen, allowed: bool): State {
    var r := Rolled(sc, ind, BlockMappingStartToken);
    r.(tokens := r.tokens + [KeyToken, key, ValueToken], keys := [None],
       keyAllowed := allowed, mark := MarkOf(k))
  }

  lemma SimpleKeyRead(t: string, f: State -> Fetched, env: Env, sc: State, p: Pen, key: string,
                      ind: int, allowed: bool)
    requires Fetches(t, f)
    requires ValidEnv(env) && At(t, sc, p, allowed) && IdleKey(sc)
    requires 0 <= ind && sc.indent <= ind && (BreaksLine(p, ind) || allowed)
    requires (sc.indent < ind ==> |sc.indents| < MAX_INDENTS) && sc.parsed <= |sc.tokens|
    requires SimpleKeyAllowed(key)
    requires EmitKey(p, key, ind, env).out <= t && IsBlankz(Ch(t, |EmitKey(p, key, ind, env).out|))
    ensures Run(f, sc, 2)
         == Ok(KeyState(sc, ind, KeyScalar(key, env), EmitKey(p, key, ind, env), false))
  {
    hide EmitScalar, SelectStyle, SimpleKeyAllowed, KeyedTokens, KeyState, Rolled, Run, Fetches;
    var style := env.styleOf(key);
    var q := WriteIndent(p, ind);
    var s := EmitScalar(q, key, style, InObject, true, ind, env.cfg);
    EmitScalarNode(q, key, style, InObject, true, ind, env.cfg);
    SimpleKeyWidth(q, key, style, InObject, ind, env.cfg);
    var k := EmitKey(p, key, ind, env);
    assert k.out == s.out + ":";
    ReadsAfter(t, s.out, ":");
    ReadsFirst(t, |s.out|, ":");
    SettleIndent(t, p, ind, allowed);
    var sc1 := ScalarRead(t, f, sc, q, key, style, InObject, true, ind, env.cfg, true, 0, false);
    SimpleColonRead(t, f, sc1, s, sc.tokens, KeyScalar(key, env), q);
    KeyStateIs(sc, sc1, ScalarAt(q), true, ind, KeyScalar(key, env), k);
    RunTwo(f, sc, sc1, KeyState(sc, ind, KeyScalar(key, env), k, false));
  }

  /** What the ':' makes of the state is what the key as a whole makes of it. */
  lemma KeyStateIs(sc: State, sc1: State, q: Pen, allowed: bool, ind: int, key: Token, k: Pen)
    requires ScalarTaken(sc, sc1, q, allowed, key)
    ensures Rolled(sc1, ind, BlockMappingStartToken).(tokens := sc.tokens + KeyedTokens(sc1, ind, key), keys := [None],
                                                      keyAllowed := false, mark := MarkOf(k))
         == KeyState(sc, ind, key, k, false)
  {
    assert sc.tokens + KeyedTokens(sc, ind, key)
        == Rolled(sc, ind, BlockMappingStartToken).tokens + [KeyToken, key, ValueToken];
  }

  /** "? key", and ": " on the next line. */
  lemma ComplexKeyRead(t: string, f: State -> Fetched, env: Env, sc: State, p: Pen, key: string,
                       ind: int, allowed: bool)
    requires Fetches(t, f)
    requires ValidEnv(env) && At(t, sc, p, allowed) && IdleKey(sc)
    requires 0 <= ind && sc.indent <= ind && (BreaksLine(p, ind) || allowed)
    requires (sc.indent < ind ==> |sc.indents| < MAX_INDENTS) && !SimpleKeyAllowed(key)
    requires EmitKey(p, key, ind, env).out <= t && IsBlankz(Ch(t, |EmitKey(p, key, ind, env).out|))
    ensures Run(f, sc, 3)
         == Ok(KeyState(sc, ind, KeyScalar(key, env), EmitKey(p, key, ind, env), true))
  {
    hide EmitScalar, SelectStyle, SimpleKeyAllowed, Stops, Settle, Run, Fetches;
    var style := env.styleOf(key);
    var q := QuestionPen(p, ind);
    var s := EmitScalar(q, key, style, InObject, false, ind, env.cfg);
    EmitScalarNode(q, key, style, InObject, false, ind, env.cfg);
    var k := EmitKey(p, key, ind, env);
    IndicatorText(t, WriteIndent(s, ind), ':');
    BlankBeforeScalar(t, q, key, style, InObject, false, ind, env.cfg);
    QuestionRead(t, f, sc, p, ind, allowed);
    var sc1 := QuestionState(sc, ind, q);
    NextLine(t, s, ind, ind);
    var sc2 := ScalarRead(t, f, sc1, q, key, style, InObject, false, ind, env.cfg, true, ind, true);
    ComplexColonRead(t, f, sc2, s, ind);
    var r := Rolled(sc, ind, BlockMappingStartToken);
    assert r.tokens + [KeyToken] + [KeyScalar(key, env)] + [ValueToken]
        == r.tokens + [KeyToken, KeyScalar(key, env), ValueToken];
    var sc3 := KeyState(sc, ind, KeyScalar(key, env), k, true);
    RunTwo(f, sc1, sc2, sc3);
    RunOne(f, sc, sc1);
    RunGoesOn(f, sc, 1, sc1, sc1, 2, sc3);
  }

  // ---------- trees ----------

  /** A node may start at p: after an indicator, or at the start of the stream. */
  ghost predicate NodeStart(p: Pen, place: Place, indent: int, allowed: bool) {
    && (p.indention ==> allowed)
    && p.column > indent
    && (if place == Root then indent == -1 else indent >= 0)
  }

  lemma {:induction false} TreeRead(t: string, f: State -> Fetched, env: Env, sc: State, p: Pen, tree: Tree,
                                    place: Place, indent: int, allowed: bool, n: nat) returns (sc1: State)
    requires Fetches(t, f)
    requires ValidEnv(env) && ValidTree(tree)
    requires At(t, sc, p, allowed) && sc.keys == [None] && sc.indent == indent
    requires NodeStart(p, place, indent, allowed) && sc.parsed <= |sc.tokens|
    requires |sc.indents| + Depth(tree) <= MAX_INDENTS
    requires EmitTree(p, tree, place, indent, env).out <= t
    requires Stops(t, EmitTree(p, tree, place, indent, env), indent, n, true)
    ensures Run(f, sc, TreeFetches(tree)) == Ok(sc1) && sc1.parsed == sc.parsed
    ensures Pending(sc1, sc, TreeTokens(tree, env))
    ensures Rest(t, sc1, EmitTree(p, tree, place, indent, env))
    decreases tree, 1
  {
    hide Settle, Run, Fetches, Stops, EmitScalar, EmitItems, EmitEntries, ItemTokens, EntryTokens;
    var q := EmitTree(p, tree, place, indent, env);
    var inner := IncreaseIndent(indent, false, place == InList, env.cfg);
    IndentGrows(indent, false, place == InList, env.cfg);
    TreeNode(p, tree, place, indent, env);
    if tree.TList? && tree.items == [] {
      sc1 := EmptyRead(t, f, sc, p, false, allowed);
    } else if tree.TObject? && tree.entries == [] {
      sc1 := EmptyRead(t, f, sc, p, true, allowed);
    } else if tree.TList? {
      StopsDeeper(t, q, indent, inner, n);
      sc1 := ItemsRead(t, f, env, sc, p, tree.items, inner, allowed, n);
      ClosesOne(sc, sc1, inner, BlockSequenceStartToken, ItemTokens(tree.items, env));
    } else if tree.TObject? {
      StopsDeeper(t, q, indent, inner, n);
      sc1 := EntriesRead(t, f, env, sc, p, tree.entries, inner, allowed, n);
      ClosesOne(sc, sc1, inner, BlockMappingStartToken, EntryTokens(tree.entries, env));
    } else {
      sc1 := ScalarRead(t, f, sc, p, LeafText(tree), LeafStyle(tree, env), place, false, indent,
                        env.cfg, allowed, n, true);
      RunOne(f, sc, sc1);
    }
  }

  /** Closing a block that was begun for `inner` gives one BLOCK-END. */
  lemma ClosesOne(sc: State, sc1: State, inner: int, start: Token, body: seq<Token>)
    requires sc.indent < inner && sc1.flow == 0
    requires Pending(sc1, Rolled(sc, inner, start), body)
    ensures Pending(sc1, sc, [start] + body + [BlockEndToken])
  {
    UnrollTwice(sc1, inner, sc.indent);
    assert (sc.indents + [sc.indent])[..|sc.indents|] == sc.indents;
    assert sc.tokens + [start] + body + [BlockEndToken] == sc.tokens + ([start] + body + [BlockEndToken]);
  }

  /** A dash and the item behind it. */
  lemma {:induction false} ItemRead(t: string, f: State -> Fetched, env: Env, sc: State, p: Pen, item: Tree,
                                    ind: int, allowed: bool, n: nat) returns (sc1: State)
    requires Fetches(t, f)
    requires ValidEnv(env) && ValidTree(item)
    requires At(t, sc, p, allowed) && IdleKey(sc) && sc.parsed <= |sc.tokens|
    requires 0 <= ind && sc.indent <= ind && (BreaksLine(p, ind) || allowed)
    requires |sc.indents| + (if sc.indent < ind then 1 else 0) + Depth(item) <= MAX_INDENTS
    requires EmitTree(DashPen(p, ind), item, InList, ind, env).out <= t
    requires Stops(t, EmitTree(DashPen(p, ind), item, InList, ind, env), ind, n, true)
    ensures Run(f, sc, 1 + TreeFetches(item)) == Ok(sc1) && sc1.parsed == sc.parsed
    ensures Pending(sc1, Rolled(sc, ind, BlockSequenceStartToken),
                    [BlockEntryToken] + TreeTokens(item, env))
    ensures Rest(t, sc1, EmitTree(DashPen(p, ind), item, InList, ind, env))
    decreases item, 2
  {
    hide EmitTree, TreeTokens, TreeFetches;
    var d := DashPen(p, ind);
    var scd := DashState(sc, ind, d);
    var base := Rolled(sc, ind, BlockSequenceStartToken);
    TreeNode(d, item, InList, ind, env);
    BlankBeforeNode(t, d, item, InList, ind, env);
    DashRead(t, f, sc, p, ind, allowed);
    sc1 := TreeRead(t, f, env, scd, d, item, InList, ind, true, n);
    RunOne(f, sc, scd);
    RunGoesOn(f, sc, 1, scd, scd, TreeFetches(item), sc1);
    PendingAfter(sc1, scd, base, [BlockEntryToken], TreeTokens(item, env));
  }

  lemma {:induction false} ItemsRead(t: string, f: State -> Fetched, env: Env, sc: State, p: Pen,
                                     items: seq<Tree>, ind: int, allowed: bool, n: nat)
    returns (sc1: State)
    requires Fetches(t, f)
    requires ValidEnv(env) && ValidItems(items) && items != []
    requires At(t, sc, p, allowed) && IdleKey(sc) && sc.parsed <= |sc.tokens|
    requires 0 <= ind && sc.indent <= ind && (BreaksLine(p, ind) || allowed)
    requires |sc.indents| + (if sc.indent < ind then 1 else 0) + ItemDepth(items) <= MAX_INDENTS
    requires EmitItems(p, items, ind, env).out <= t
    requires Stops(t, EmitItems(p, items, ind, env), ind, n, true)
    ensures Run(f, sc, ItemFetches(items)) == Ok(sc1) && sc1.parsed == sc.parsed
    ensures Pending(sc1, Rolled(sc, ind, BlockSequenceStartToken), ItemTokens(items, env))
    ensures Rest(t, sc1, EmitItems(p, items, ind, env))
    decreases items, 0
  {
    hide EmitTree, TreeTokens, TreeFetches, DashPen, Stops, At, Settle, WriteIndent, Run, BreaksLine, IdleKey;
    var x := EmitTree(DashPen(p, ind), items[0], InList, ind, env);
    var base := Rolled(sc, ind, BlockSequenceStartToken);
    var read := [BlockEntryToken] + TreeTokens(items[0], env);
    var rest := items[1..];
    ItemsBegin(p, items, ind, env);
    TreeNode(DashPen(p, ind), items[0], InList, ind, env);
    if rest == [] {
      sc1 := ItemRead(t, f, env, sc, p, items[0], ind, allowed, n);
    } else {
      NextItem(t, x, rest, ind, env);
      var scx := ItemRead(t, f, env, sc, p, items[0], ind, allowed, ind);
      sc1 := MoreItems(t, f, env, sc, scx, base, read, x, rest, ind, n,
                       1 + TreeFetches(items[0]), ItemFetches(items));
    }
  }

  /** The next item stands on a line of its own. */
  lemma NextItem(t: string, x: Pen, rest: seq<Tree>, ind: int, env: Env)
    requires ValidEnv(env) && ValidItems(rest) && rest != [] && !x.indention && ind >= 0
    requires EmitItems(x, rest, ind, env).out <= t
    ensures Stops(t, x, ind, ind, true)
    ensures Settle(t, MarkOf(x), 0, false) == (MarkOf(WriteIndent(x, ind)), true)
  {
    hide EmitTree;
    ItemsBegin(x, rest, ind, env);
    IndicatorText(t, WriteIndent(x, ind), '-');
    NextLine(t, x, ind, ind);
  }

  /** After an item another one follows in the same column. */
  lemma {:induction false} MoreItems(t: string, f: State -> Fetched, env: Env, sc: State, scx: State, base: State,
                                     read: seq<Token>, x: Pen, rest: seq<Tree>, ind: int, n: nat,
                                     k: nat, total: nat) returns (sc1: State)
    requires Fetches(t, f)
    requires ValidEnv(env) && ValidItems(rest) && rest != []
    requires total == k + ItemFetches(rest)
    requires Run(f, sc, k) == Ok(scx) && Pending(scx, base, read) && Rest(t, scx, x)
    requires base.indent == ind >= 0 && !x.indention && scx.parsed <= |base.tokens|
    requires |base.indents| + ItemDepth(rest) <= MAX_INDENTS
    requires Settle(t, MarkOf(x), 0, false) == (MarkOf(WriteIndent(x, ind)), true)
    requires EmitItems(x, rest, ind, env).out <= t
    requires Stops(t, EmitItems(x, rest, ind, env), ind, n, true)
    ensures Run(f, sc, total) == Ok(sc1) && sc1.parsed == scx.parsed
    ensures Pending(sc1, base, read + ItemTokens(rest, env))
    ensures Rest(t, sc1, EmitItems(x, rest, ind, env))
    decreases rest, 1
  {
    hide EmitItems, ItemTokens, Run, Fetches, Stops, ItemDepth, UnrollIndent, Settle, ValidItems;
    var c := Closed(scx, base, read);
    ClosesFirst(t, f, scx, base, read);
    sc1 := ItemsRead(t, f, env, c, x, rest, ind, false, n);
    RunGoesOn(f, sc, k, scx, c, ItemFetches(rest), sc1);
    assert base.tokens + read + ItemTokens(rest, env) == base.tokens + (read + ItemTokens(rest, env));
  }

  /** Pending on top of a few tokens more is pending on the base. */
  lemma PendingAfter(scx: State, mid: State, base: State, more: seq<Token>, read: seq<Token>)
    requires Pending(scx, mid, read)
    requires mid.indent == base.indent && mid.indents == base.indents && mid.tokens == base.tokens + more
    ensures Pending(scx, base, more + read)
  {
    assert base.tokens + more + read == base.tokens + (more + read);
  }

  lemma KeyRead(t: string, f: State -> Fetched, env: Env, sc: State, p: Pen, key: string, ind: int, allowed: bool)
    requires Fetches(t, f)
    requires ValidEnv(env) && At(t, sc, p, allowed) && IdleKey(sc)
    requires 0 <= ind && sc.indent <= ind && (BreaksLine(p, ind) || allowed)
    requires (sc.indent < ind ==> |sc.indents| < MAX_INDENTS) && sc.parsed <= |sc.tokens|
    requires EmitKey(p, key, ind, env).out <= t && IsBlankz(Ch(t, |EmitKey(p, key, ind, env).out|))
    ensures Run(f, sc, KeyFetches(key))
         == Ok(KeyState(sc, ind, KeyScalar(key, env), EmitKey(p, key, ind, env), !SimpleKeyAllowed(key)))
  {
    hide EmitKey, KeyScalar, SimpleKeyAllowed;
    if SimpleKeyAllowed(key) {
      SimpleKeyRead(t, f, env, sc, p, key, ind, allowed);
    } else {
      ComplexKeyRead(t, f, env, sc, p, key, ind, allowed);
    }
  }

  lemma KeyStarts(p: Pen, key: string, ind: int, env: Env)
    requires ValidEnv(env) && ind >= 0
    ensures NodeStart(EmitKey(p, key, ind, env), InObject, ind, !SimpleKeyAllowed(key))
  {
    if SimpleKeyAllowed(key) {
      SimpleKeyWidth(WriteIndent(p, ind), key, env.styleOf(key), InObject, ind, env.cfg);
    }
  }

  /** A key and its value. */
  lemma {:induction false} EntryRead(t: string, f: State -> Fetched, env: Env, sc: State, p: Pen,
                                     key: string, value: Tree, ind: int, allowed: bool, n: nat)
    returns (sc1: State)
    requires Fetches(t, f)
    requires ValidEnv(env) && ValidTree(value)
    requires At(t, sc, p, allowed) && IdleKey(sc) && sc.parsed <= |sc.tokens|
    requires 0 <= ind && sc.indent <= ind && (BreaksLine(p, ind) || allowed)
    requires |sc.indents| + (if sc.indent < ind then 1 else 0) + Depth(value) <= MAX_INDENTS
    requires EmitTree(EmitKey(p, key, ind, env), value, InObject, ind, env).out <= t
    requires Stops(t, EmitTree(EmitKey(p, key, ind, env), value, InObject, ind, env), ind, n, true)
    ensures Run(f, sc, KeyFetches(key) + TreeFetches(value)) == Ok(sc1) && sc1.parsed == sc.parsed
    ensures Pending(sc1, Rolled(sc, ind, BlockMappingStartToken),
                    [KeyToken, KeyScalar(key, env), ValueToken] + TreeTokens(value, env))
    ensures Rest(t, sc1, EmitTree(EmitKey(p, key, ind, env), value, InObject, ind, env))
    decreases value, 2
  {
    hide EmitTree, EmitKey, TreeTokens, TreeFetches, KeyFetches, KeyScalar, SimpleKeyAllowed;
    var k := EmitKey(p, key, ind, env);
    var allowed' := !SimpleKeyAllowed(key);
    var sck := KeyState(sc, ind, KeyScalar(key, env), k, allowed');
    var base := Rolled(sc, ind, BlockMappingStartToken);
    var keyed := [KeyToken, KeyScalar(key, env), ValueToken];
    EmitKeyGrows(p, key, ind, env);
    TreeNode(k, value, InObject, ind, env);
    BlankBeforeNode(t, k, value, InObject, ind, env);
    KeyRead(t, f, env, sc, p, key, ind, allowed);
    KeyStarts(p, key, ind, env);
    sc1 := TreeRead(t, f, env, sck, k, value, InObject, ind, allowed', n);
    RunGoesOn(f, sc, KeyFetches(key), sck, sck, TreeFetches(value), sc1);
    PendingAfter(sc1, sck, base, keyed, TreeTokens(value, env));
  }

  lemma {:induction false} EntriesRead(t: string, f: State -> Fetched, env: Env, sc: State, p: Pen,
                                       entries: seq<Entry>, ind: int, allowed: bool, n: nat)
    returns (sc1: State)
    requires Fetches(t, f)
    requires ValidEnv(env) && ValidEntries(entries) && entries != []
    requires At(t, sc, p, allowed) && IdleKey(sc) && sc.parsed <= |sc.tokens|
    requires 0 <= ind && sc.indent <= ind && (BreaksLine(p, ind) || allowed)
    requires |sc.indents| + (if sc.indent < ind then 1 else 0) + EntryDepth(entries) <= MAX_INDENTS
    requires EmitEntries(p, entries, ind, env).out <= t
    requires Stops(t, EmitEntries(p, entries, ind, env), ind, n, true)
    ensures Run(f, sc, EntryFetches(entries)) == Ok(sc1) && sc1.parsed == sc.parsed
    ensures Pending(sc1, Rolled(sc, ind, BlockMappingStartToken), EntryTokens(entries, env))
    ensures Rest(t, sc1, EmitEntries(p, entries, ind, env))
    decreases entries, 0
  {
    hide EmitTree, EmitKey, TreeTokens, TreeFetches, KeyFetches, KeyScalar, Stops, At, Settle, WriteIndent, Run,
      BreaksLine, IdleKey;
    var key, value := entries[0].key, entries[0].value;
    var x := EmitTree(EmitKey(p, key, ind, env), value, InObject, ind, env);
    var base := Rolled(sc, ind, BlockMappingStartToken);
    var read := [KeyToken, KeyScalar(key, env), ValueToken] + TreeTokens(value, env);
    var rest := entries[1..];
    EntriesBegin(p, entries, ind, env);
    TreeNode(EmitKey(p, key, ind, env), value, InObject, ind, env);
    if rest == [] {
      sc1 := EntryRead(t, f, env, sc, p, key, value, ind, allowed, n);
    } else {
      NextEntry(t, x, rest, ind, env);
      var scx := EntryRead(t, f, env, sc, p, key, value, ind, allowed, ind);
      sc1 := MoreEntries(t, f, env, sc, scx, base, read, x, rest, ind, n,
                         KeyFetches(key) + TreeFetches(value), EntryFetches(entries));
    }
  }

  /** The next entry stands on a line of its own. */
  lemma NextEntry(t: string, x: Pen, rest: seq<Entry>, ind: int, env: Env)
    requires ValidEnv(env) && ValidEntries(rest) && rest != [] && !x.indention && ind >= 0
    requires EmitEntries(x, rest, ind, env).out <= t
    ensures Stops(t, x, ind, ind, true)
    ensures Settle(t, MarkOf(x), 0, false) == (MarkOf(WriteIndent(x, ind)), true)
  {
    hide EmitTree, EmitKey;
    EntriesBegin(x, rest, ind, env);
    EntryText(t, x, rest, ind, env);
    NextLine(t, x, ind, ind);
  }

  lemma {:induction false} MoreEntries(t: string, f: State -> Fetched, env: Env, sc: State, scx: State, base: State,
                                       read: seq<Token>, x: Pen, rest: seq<Entry>, ind: int, n: nat,
                                       k: nat, total: nat) returns (sc1: State)
    requires Fetches(t, f)
    requires ValidEnv(env) && ValidEntries(rest) && rest != []
    requires total == k + EntryFetches(rest)
    requires Run(f, sc, k) == Ok(scx) && Pending(scx, base, read) && Rest(t, scx, x)
    requires base.indent == ind >= 0 && !x.indention && scx.parsed <= |base.tokens|
    requires |base.indents| + EntryDepth(rest) <= MAX_INDENTS
    requires Settle(t, MarkOf(x), 0, false) == (MarkOf(WriteIndent(x, ind)), true)
    requires EmitEntries(x, rest, ind, env).out <= t
    requires Stops(t, EmitEntries(x, rest, ind, env), ind, n, true)
    ensures Run(f, sc, total) == Ok(sc1) && sc1.parsed == scx.parsed
    ensures Pending(sc1, base, read + EntryTokens(rest, env))
    ensures Rest(t, sc1, EmitEntries(x, rest, ind, env))
    decreases rest, 1
  {
    hide EmitEntries, EntryTokens, Run, Fetches, Stops, EntryDepth, UnrollIndent, Settle, ValidEntries;
    var c := Closed(scx, base, read);
    ClosesFirst(t, f, scx, base, read);
    sc1 := EntriesRead(t, f, env, c, x, rest, ind, false, n);
    RunGoesOn(f, sc, k, scx, c, EntryFetches(rest), sc1);
    assert base.tokens + read + EntryTokens(rest, env) == base.tokens + (read + EntryTokens(rest, env));
  }

  /** An entry begins with '?' or with its key: never with a blank or a break. */
  lemma EntryText(t: string, x: Pen, entries: seq<Entry>, ind: int, env: Env)
    requires ValidEnv(env) && ValidEntries(entries) && entries != []
    requires EmitEntries(x, entries, ind, env).out <= t
    ensures !BlankOrBreak(Ch(t, |WriteIndent(x, ind).out|))
  {
    hide EmitEntries, EmitTree, SelectStyle;
    var key := entries[0].key;
    var q := WriteIndent(x, ind);
    EntriesBegin(x, entries, ind, env);
    if SimpleKeyAllowed(key) {
      var style := env.styleOf(key);
      PlainIsAllowed(style, key, true, env.cfg);
      ScalarText(t, q, key, SelectStyle(style, key, true, false, env.cfg), false, false,
                 IncreaseIndent(ind, true, false, env.cfg), env.cfg);
    } else {
      EmitScalarNode(QuestionPen(x, ind), key, env.styleOf(key), InObject, false, ind, env.cfg);
      IndicatorText(t, q, '?');
    }
  }

  lemma PlainIsAllowed(requested: Style, v: string, simpleKey: bool, cfg: Config)
    requires requested == Plain ==> v != ""
    ensures SelectStyle(requested, v, simpleKey, false, cfg) == Plain ==> v != "" && BlockPlainAllowed(v, cfg)
  {
  }

  /** The first character of a scalar. */
  lemma ScalarText(t: string, p: Pen, v: string, style: Style, root: bool, allow: bool,
                   indent: int, cfg: Config)
    requires style == Plain ==> v != "" && BlockPlainAllowed(v, cfg)
    requires p.whitespace && WriteScalar(p, v, style, root, allow, indent, cfg).out <= t
    ensures !BlankOrBreak(Ch(t, |p.out|))
  {
    match style
    case Plain =>
      PlainStart(v, cfg);
      PlainGrows(LineStep(p, v[0], false, false, false, indent), v, 1, false, false, allow, indent, cfg);
      assert LineStep(p, v[0], false, false, false, indent).out == p.out + [v[0]];
      ReadsAfter(t, p.out, [v[0]]);
      ReadsFirst(t, |p.out|, [v[0]]);
    case _ =>
      var c := if style == SingleQuoted then "'" else "\"";
      QuotedText(p, v, style == SingleQuoted, allow, indent, cfg);
      ReadsAfter(t, p.out, c);
      ReadsFirst(t, |p.out|, c);
  }

  lemma QuotedText(p: Pen, v: string, single: bool, allow: bool, indent: int, cfg: Config)
    requires p.whitespace
    ensures single ==> p.out + "'" <= WriteSingle(p, v, allow, indent, cfg).out
    ensures !single ==> p.out + "\"" <= WriteDouble(p, v, allow, indent, cfg).out
  {
    if single {
      SingleRoundTrip.SingleGrows(WriteIndicator(p, "'", true, false, false), v, 0, false, false, allow, indent, cfg);
    } else {
      DoubleRoundTrip.DoubleGrows(WriteIndicator(p, "\"", true, false, false), v, 0, false, allow, indent, cfg);
    }
  }
}
