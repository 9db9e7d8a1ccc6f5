/** The whole stream: what JSON is printed as is scanned back as the document's tokens. */
module ScanStream {
  import opened Chars
  import opened Pens
  import opened ScalarScan
  import opened Options
  import opened Resolve
  import opened Tokens
  import opened Layout
  import opened Scanner
  import opened ScalarWriters
  import opened PlainRoundTrip
  import opened LayoutTokens
  import opened ScanSteps
  import opened ScanDocument

  /** A plain scalar at the root leaves the document open ended. */
  predicate RootIsPlain(tree: Tree, env: Env) {
    IsLeaf(tree) && LeafToken(tree, env).style == Plain
  }

  function DocumentTokens(tree: Tree, env: Env): seq<Token> {
    [StreamStartToken] + TreeTokens(tree, env)
      + (if RootIsPlain(tree, env) then [DocumentEndToken, StreamEndToken] else [StreamEndToken])
  }

  function DocumentFetches(tree: Tree, env: Env): nat {
    1 + TreeFetches(tree) + (if RootIsPlain(tree, env) then 2 else 1)
  }

  const Begun := FetchStreamStart(StartState)

  // ---------- the open end ----------

  lemma {:induction false} PlainKeepsOpen(p: Pen, v: string, i: nat, spaces: bool, breaks: bool,
                                          allow: bool, indent: int, cfg: Config)
    requires i <= |v|
    ensures PlainBody(p, v, i, spaces, breaks, allow, indent, cfg).openEnded == p.openEnded
    decreases |v| - i
  {
    if i < |v| {
      var folds := FoldsPlain(p, v, i, allow, spaces, cfg);
      PlainKeepsOpen(LineStep(p, v[i], folds, breaks, false, indent), v, i + 1,
                     SpacesAfter(v[i], spaces), BreaksAfter(v[i], breaks), allow, indent, cfg);
    }
  }

  lemma ScalarOpen(p: Pen, v: string, style: Style, root: bool, allow: bool, indent: int, cfg: Config)
    requires !p.openEnded
    ensures WriteScalar(p, v, style, root, allow, indent, cfg).openEnded <==> root && style == Plain
  {
    if style == Plain {
      PlainKeepsOpen(if v != "" && !p.whitespace then Put(p, ' ') else p,
                     v, 0, false, false, allow, indent, cfg);
    }
  }

  lemma KeyClosed(p: Pen, key: string, indent: int, env: Env)
    requires ValidEnv(env)
    ensures !EmitKey(p, key, indent, env).openEnded
  {
  }

  lemma {:induction false} TreeOpen(p: Pen, tree: Tree, place: Place, indent: int, env: Env)
    requires ValidEnv(env) && !p.openEnded
    ensures EmitTree(p, tree, place, indent, env).openEnded
        <==> place == Root && RootIsPlain(tree, env)
    decreases tree, 1
  {
    var inner := IncreaseIndent(indent, false, place == InList, env.cfg);
    match tree
    case TList(items) => if items != [] { ItemsClosed(p, items, inner, env); }
    case TObject(entries) => if entries != [] { EntriesClosed(p, entries, inner, env); }
    case _ =>
      ScalarOpen(p, LeafText(tree), SelectStyle(LeafStyle(tree, env), LeafText(tree), false, false, env.cfg),
                 place == Root, true, IncreaseIndent(indent, true, place == InList, env.cfg), env.cfg);
  }

  lemma {:induction false} ItemsClosed(p: Pen, items: seq<Tree>, indent: int, env: Env)
    requires ValidEnv(env) && !p.openEnded
    ensures !EmitItems(p, items, indent, env).openEnded
    decreases items, 0
  {
    if items != [] {
      TreeOpen(DashPen(p, indent), items[0], InList, indent, env);
      ItemsClosed(EmitTree(DashPen(p, indent), items[0], InList, indent, env), items[1..], indent, env);
    }
  }

  lemma {:induction false} EntriesClosed(p: Pen, entries: seq<Entry>, indent: int, env: Env)
    requires ValidEnv(env) && !p.openEnded
    ensures !EmitEntries(p, entries, indent, env).openEnded
    decreases entries, 0
  {
    if entries != [] {
      var k := EmitKey(p, entries[0].key, indent, env);
      KeyClosed(p, entries[0].key, indent, env);
      TreeOpen(k, entries[0].value, InObject, indent, env);
      EntriesClosed(EmitTree(k, entries[0].value, InObject, indent, env), entries[1..], indent, env);
    }
  }

  // ---------- the end of the stream ----------

  ghost predicate AtLineStart(t: string, sc: State, k: nat) {
    sc.started && Settled(t, sc).mark.index == k && Settled(t, sc).mark.column == 0
  }

  /** All blocks are closed before the end, or before a document end marker. */
  lemma UnrollsToBase(t: string, sc: State, base: State, read: seq<Token>)
    requires Pending(sc, base, read) && base.indent == -1 && Settled(t, sc).mark.column == 0
    ensures UnrollIndent(Prepared(t, sc), -1)
         == Closed(sc, base, read).(mark := Settled(t, sc).mark, keyAllowed := Settled(t, sc).keyAllowed)
  {
    var s := Settled(t, sc);
    UnrollKeeps(sc, -1, s.mark, s.keyAllowed);
    UnrollTwice(s, 0, -1);
  }

  lemma StreamEndRead(t: string, f: State -> Fetched, sc: State, base: State, read: seq<Token>, k: nat)
    requires Fetches(t, f)
    requires Pending(sc, base, read) && base.indent == -1 && AtLineStart(t, sc, k) && |sc.keys| == 1
    requires Ch(t, k) == NUL && IdleKey(sc)
    ensures f(sc).Ok? && f(sc).value.keys == [None]
    ensures f(sc).value.tokens == base.tokens + read + [StreamEndToken]
  {
    UnrollsToBase(t, sc, base, read);
    UnrollSame(Settled(t, sc), 0);
    FetchesNext(t, f, sc);
  }

  lemma {:induction false} UnrollSame(sc: State, column: int)
    ensures UnrollIndent(sc, column).keys == sc.keys && UnrollIndent(sc, column).mark == sc.mark
    ensures UnrollIndent(sc, column).flow == sc.flow && UnrollIndent(sc, column).started == sc.started
    decreases |sc.indents|
  {
    if !(sc.flow > 0 || sc.indent <= column || sc.indents == []) {
      var last := |sc.indents| - 1;
      UnrollSame(AppendToken(sc, BlockEndToken).(indent := sc.indents[last], indents := sc.indents[..last]), column);
    }
  }

  lemma DocumentEndRead(t: string, f: State -> Fetched, sc: State, base: State, read: seq<Token>, k: nat)
    returns (sc1: State)
    requires Fetches(t, f)
    requires Pending(sc, base, read) && base.indent == -1 && AtLineStart(t, sc, k) && |sc.keys| == 1
    requires Reads(t, k, "...\n") && IdleKey(sc)
    ensures f(sc) == Ok(sc1)
    ensures sc1.tokens == base.tokens + read + [DocumentEndToken] && sc1.indent == -1
    ensures sc1.started && sc1.flow == sc.flow && sc1.keys == [None] && sc1.mark.index == k + 3
  {
    UnrollsToBase(t, sc, base, read);
    UnrollSame(Settled(t, sc), 0);
    DotsRead(t, k);
    FetchesNext(t, f, sc);
    assert DocIndicatorAt(t, Prepared(t, sc).mark);
    assert sc.keys[0 := None] == [None];
    sc1 := FetchNext(t, sc).value;
  }

  lemma DotsRead(t: string, k: nat)
    requires Reads(t, k, "...\n")
    ensures Ch(t, k) == Ch(t, k + 1) == Ch(t, k + 2) == '.' && Ch(t, k + 3) == '\n'
  {
    var s := "...\n";
    assert Ch(t, k + 0) == s[0] && Ch(t, k + 1) == s[1] && Ch(t, k + 2) == s[2] && Ch(t, k + 3) == s[3];
  }

  /** What follows the root node. */
  lemma AfterRoot(t: string, q: Pen)
    requires !q.indention && WriteIndent(q, -1).out <= t
    requires var k := |WriteIndent(q, -1).out|; Ch(t, k) == NUL || Reads(t, k, "...\n")
    ensures Stops(t, q, -1, 0, true)
    ensures Settle(t, MarkOf(q), 0, false) == (MarkOf(WriteIndent(q, -1)), true)
  {
    var p := WriteIndent(q, -1);
    assert p.out == q.out + "\n";
    ReadsAfter(t, q.out, "\n");
    ReadsFirst(t, |q.out|, "\n");
    var m := SkipLine(t, MarkOf(q));
    assert Advance(m, 0) == m == MarkOf(p);
    if Reads(t, |p.out|, "...\n") {
      DotsRead(t, |p.out|);
    }
  }

  /** The root node, up to the line after it. */
  lemma RootRead(tree: Tree, env: Env, f: State -> Fetched) returns (sc: State, p: Pen)
    requires ValidEnv(env) && ValidTree(tree) && Depth(tree) <= MAX_INDENTS
    requires Fetches(EmitDocument(tree, env).out, f)
    ensures Run(f, StartState, 1 + TreeFetches(tree)) == Ok(sc)
    ensures Pending(sc, Begun, TreeTokens(tree, env)) && IdleKey(sc) && |sc.keys| == 1
    ensures AtLineStart(EmitDocument(tree, env).out, sc, |p.out|)
    ensures p.openEnded <==> RootIsPlain(tree, env)
    ensures sc.flow == 0
    ensures var t := EmitDocument(tree, env).out;
      if p.openEnded then Reads(t, |p.out|, "...\n") && Ch(t, |p.out| + 4) == NUL
      else Ch(t, |p.out|) == NUL
  {
    hide EmitTree, TreeTokens, TreeFetches, RootIsPlain, Depth;
    var t := EmitDocument(tree, env).out;
    var q := EmitTree(StartPen, tree, Root, -1, env);
    p := WriteIndent(q, -1);
    TreeNode(StartPen, tree, Root, -1, env);
    TreeOpen(StartPen, tree, Root, -1, env);
    DocumentText(t, q, p);
    AfterRoot(t, q);
    sc := TreeRead(t, f, env, Begun, StartPen, tree, Root, -1, true, 0);
    FetchesNext(t, f, StartState);
    RunOne(f, StartState, Begun);
    RunGoesOn(f, StartState, 1, Begun, Begun, TreeFetches(tree), sc);
  }

  /** The end of a stream that was left open: the document end marker comes first. */
  lemma OpenEndRead(t: string, f: State -> Fetched, sc: State, read: seq<Token>, k: nat) returns (sc2: State)
    requires Fetches(t, f)
    requires Pending(sc, Begun, read) && AtLineStart(t, sc, k) && |sc.keys| == 1 && sc.flow == 0
    requires Reads(t, k, "...\n") && Ch(t, k + 4) == NUL && IdleKey(sc)
    ensures Run(f, sc, 2) == Ok(sc2)
    ensures sc2.tokens == [StreamStartToken] + read + [DocumentEndToken, StreamEndToken] && sc2.keys == [None]
  {
    hide Pending, Settled, AtLineStart, Closed, IdleKey, Reads, FetchNext;
    var sc1 := DocumentEndRead(t, f, sc, Begun, read, k);
    StreamEndAfterDots(t, f, sc1, k);
    sc2 := f(sc1).value;
    RunTwo(f, sc, sc1, sc2);
  }

  lemma DocumentTokensAre(tree: Tree, env: Env)
    ensures DocumentTokens(tree, env) == Begun.tokens + TreeTokens(tree, env)
      + (if RootIsPlain(tree, env) then [DocumentEndToken, StreamEndToken] else [StreamEndToken])
    ensures Begun.tokens == [StreamStartToken]
  {
    hide TreeTokens, RootIsPlain;
  }

  lemma AllRead(tree: Tree, env: Env, f: State -> Fetched) returns (done: State)
    requires ValidEnv(env) && ValidTree(tree) && Depth(tree) <= MAX_INDENTS
    requires Fetches(EmitDocument(tree, env).out, f)
    ensures Run(f, StartState, DocumentFetches(tree, env)) == Ok(done)
    ensures done.tokens == DocumentTokens(tree, env) && done.keys == [None]
  {
    hide TreeTokens, TreeFetches, RootIsPlain, EmitDocument, Depth, FetchNext, Pending, Settled, AtLineStart, Closed,
      WriteIndent, IdleKey, Reads, Run, Fetches, DocumentTokens;
    var t := EmitDocument(tree, env).out;
    var sc, p := RootRead(tree, env, f);
    var n := 1 + TreeFetches(tree);
    if p.openEnded {
      done := OpenEndRead(t, f, sc, TreeTokens(tree, env), |p.out|);
      DocumentTokensAre(tree, env);
      assert DocumentFetches(tree, env) == n + 2;
      RunGoesOn(f, StartState, n, sc, sc, 2, done);
    } else {
      StreamEndRead(t, f, sc, Begun, TreeTokens(tree, env), |p.out|);
      DocumentTokensAre(tree, env);
      done := f(sc).value;
      assert DocumentFetches(tree, env) == n + 1;
      RunOne(f, sc, done);
      RunGoesOn(f, StartState, n, sc, sc, 1, done);
    }
  }

  /**
   Scanning what a JSON tree is printed as gives the tree's tokens, between those of the
   stream, for every tree the JSON decoder accepts: it nests at most 10000 collections.
   */
  lemma DocumentRead(tree: Tree, env: Env)
    requires ValidEnv(env) && ValidTree(tree) && Depth(tree) <= MAX_INDENTS
    ensures var t, n := EmitDocument(tree, env).out, DocumentFetches(tree, env);
      var r := FetchMany(t, StartState, n);
      && r.Ok? && r.value.tokens == DocumentTokens(tree, env) && r.value.keys == [None]
      && Run(Fetcher(t), StartState, n) == r
  {
    hide TreeTokens, DocumentTokens, DocumentFetches, EmitDocument, Depth, Run, FetchMany;
    var t := EmitDocument(tree, env).out;
    var done := AllRead(tree, env, Fetcher(t));
    RunIsFetchMany(t, Fetcher(t), StartState, DocumentFetches(tree, env));
  }

  /** The text after the root node: a line break, and "..." if the document was left open. */
  lemma DocumentText(t: string, q: Pen, p: Pen)
    requires p == WriteIndent(q, -1) && !q.indention && !q.whitespace
    requires t == if p.openEnded then p.out + "...\n" else p.out
    ensures p.openEnded == q.openEnded && p.out <= t && q.out <= t
    ensures p.openEnded ==> Reads(t, |p.out|, "...\n") && Ch(t, |p.out| + 4) == NUL
    ensures !p.openEnded ==> Ch(t, |p.out|) == NUL
  {
    assert p.out == q.out + "\n";
    if p.openEnded {
      ReadsAfter(t, p.out, "...\n");
    }
  }

  lemma StreamEndAfterDots(t: string, f: State -> Fetched, sc: State, k: nat)
    requires Fetches(t, f)
    requires Reads(t, k, "...\n") && Ch(t, k + 4) == NUL
    requires sc.started && sc.indent == -1 && sc.flow == 0 && sc.keys == [None] && sc.mark.index == k + 3
    ensures f(sc).Ok? && f(sc).value.keys == [None]
    ensures f(sc).value.tokens == sc.tokens + [StreamEndToken]
  {
    DotsRead(t, k);
    assert Settle(t, SkipLine(t, sc.mark), 0, true) == (SkipLine(t, sc.mark), true);
    assert Settled(t, sc).mark == SkipLine(t, sc.mark);
    StreamEndRead(t, f, sc, sc, [], k + 4);
    assert sc.tokens + [] == sc.tokens;
  }
}
