/** The tokens of a JSON tree, and what the emitter leaves behind after each part of it. */
module LayoutTokens {
  import opened Chars
  import opened Pens
  import opened Analysis
  import opened ScalarWriters
  import opened Resolve
  import opened Tokens
  import opened Layout
  import opened DoubleRoundTrip
  import opened SingleRoundTrip
  import opened PlainRoundTrip

  // ---------- the tokens of a tree ----------

  function LeafToken(tree: Tree, env: Env): Token
    requires IsLeaf(tree)
  {
    ScalarToken(LeafText(tree),
                SelectStyle(LeafStyle(tree, env), LeafText(tree), false, false, env.cfg))
  }

  function KeyScalar(key: string, env: Env): Token {
    ScalarToken(key, SelectStyle(env.styleOf(key), key, SimpleKeyAllowed(key), false, env.cfg))
  }

  function TreeTokens(tree: Tree, env: Env): seq<Token>
    decreases tree, 1
  {
    match tree
    case TList(items) =>
      if items == [] then [FlowSequenceStartToken, FlowSequenceEndToken]
      else [BlockSequenceStartToken] + ItemTokens(items, env) + [BlockEndToken]
    case TObject(entries) =>
      if entries == [] then [FlowMappingStartToken, FlowMappingEndToken]
      else [BlockMappingStartToken] + EntryTokens(entries, env) + [BlockEndToken]
    case _ => [LeafToken(tree, env)]
  }

  function ItemTokens(items: seq<Tree>, env: Env): seq<Token>
    decreases items, 0
  {
    if items == [] then [] else [BlockEntryToken] + TreeTokens(items[0], env) + ItemTokens(items[1..], env)
  }

  function EntryTokens(entries: seq<Entry>, env: Env): seq<Token>
    decreases entries, 0
  {
    if entries == [] then []
    else
      var key := [KeyToken, KeyScalar(entries[0].key, env), ValueToken];
      key + TreeTokens(entries[0].value, env) + EntryTokens(entries[1..], env)
  }

  /** How many tokens the scanner fetches one by one; block starts and ends come with others. */
  function TreeFetches(tree: Tree): nat
    decreases tree, 1
  {
    match tree
    case TList(items) => if items == [] then 2 else ItemFetches(items)
    case TObject(entries) => if entries == [] then 2 else EntryFetches(entries)
    case _ => 1
  }

  function ItemFetches(items: seq<Tree>): nat
    decreases items, 0
  {
    if items == [] then 0 else 1 + TreeFetches(items[0]) + ItemFetches(items[1..])
  }

  function KeyFetches(key: string): nat {
    if SimpleKeyAllowed(key) then 2 else 3
  }

  function EntryFetches(entries: seq<Entry>): nat
    decreases entries, 0
  {
    if entries == [] then 0
    else KeyFetches(entries[0].key) + TreeFetches(entries[0].value) + EntryFetches(entries[1..])
  }

  /** Block collections inside one another. */
  function Depth(tree: Tree): nat
    decreases tree, 1
  {
    match tree
    case TList(items) => if items == [] then 0 else 1 + ItemDepth(items)
    case TObject(entries) => if entries == [] then 0 else 1 + EntryDepth(entries)
    case _ => 0
  }

  function Max(a: nat, b: nat): nat {
    if a < b then b else a
  }

  function ItemDepth(items: seq<Tree>): nat
    decreases items, 0
  {
    if items == [] then 0 else Max(Depth(items[0]), ItemDepth(items[1..]))
  }

  function EntryDepth(entries: seq<Entry>): nat
    decreases entries, 0
  {
    if entries == [] then 0 else Max(Depth(entries[0].value), EntryDepth(entries[1..]))
  }

  // ---------- what the emitter leaves behind ----------

  /** JSON's number grammar, or a little more than it: a sign stands in front or in an exponent. */
  predicate NumberText(s: string) {
    && s != ""
    && (forall i :: 0 <= i < |s| ==> s[i] in "0123456789+-.eE")
    && (forall i :: 1 <= i < |s| && s[i] in "+-" ==> s[i - 1] in "eE")
    && ('0' <= s[0] <= '9' || (s[0] == '-' && |s| > 1 && '0' <= s[1] <= '9'))
  }

  ghost predicate ValidTree(tree: Tree)
    decreases tree, 1
  {
    match tree
    case TNumber(text) => NumberText(text)
    case TList(items) => ValidItems(items)
    case TObject(entries) => ValidEntries(entries)
    case _ => true
  }

  ghost predicate ValidItems(items: seq<Tree>)
    decreases items, 0
  {
    items == [] || (ValidTree(items[0]) && ValidItems(items[1..]))
  }

  ghost predicate ValidEntries(entries: seq<Entry>)
    decreases entries, 0
  {
    entries == [] || (ValidTree(entries[0].value) && ValidEntries(entries[1..]))
  }

  ghost predicate Node(p: Pen, q: Pen) {
    p.out <= q.out && p.line <= q.line && !q.indention && !q.whitespace
  }

  lemma ScalarNode(p: Pen, v: string, style: Style, root: bool, allow: bool, indent: int, cfg: Config)
    requires style == Plain ==> v != ""
    ensures Node(p, WriteScalar(p, v, style, root, allow, indent, cfg))
  {
    match style
    case Plain =>
      PlainGrows(ScalarAt(p), v, 0, false, false, allow, indent, cfg);
    case SingleQuoted =>
      SingleGrows(WriteIndicator(p, "'", true, false, false), v, 0, false, false, allow, indent, cfg);
    case DoubleQuoted =>
      DoubleGrows(WriteIndicator(p, "\"", true, false, false), v, 0, false, allow, indent, cfg);
  }

  lemma EmitScalarNode(p: Pen, v: string, requested: Style, place: Place, simpleKey: bool,
                       indent: int, cfg: Config)
    requires ValidConfig(cfg) && (requested == Plain ==> v != "")
    ensures Node(p, EmitScalar(p, v, requested, place, simpleKey, indent, cfg))
  {
    ScalarNode(p, v, SelectStyle(requested, v, simpleKey, false, cfg), place == Root, !simpleKey,
               IncreaseIndent(indent, true, place == InList, cfg), cfg);
  }

  lemma EmitKeyGrows(p: Pen, key: string, indent: int, env: Env)
    requires ValidEnv(env)
    ensures p.out <= WriteIndent(p, indent).out <= EmitKey(p, key, indent, env).out
    ensures p.line <= EmitKey(p, key, indent, env).line
    ensures !EmitKey(p, key, indent, env).whitespace
  {
    var q := WriteIndent(p, indent);
    var style := env.styleOf(key);
    if SimpleKeyAllowed(key) {
      EmitScalarNode(q, key, style, InObject, true, indent, env.cfg);
    } else {
      EmitScalarNode(WriteIndicator(q, "?", true, false, true), key, style, InObject, false, indent, env.cfg);
    }
  }

  lemma {:induction false} TreeNode(p: Pen, tree: Tree, place: Place, indent: int, env: Env)
    requires ValidEnv(env) && ValidTree(tree)
    ensures Node(p, EmitTree(p, tree, place, indent, env))
    decreases tree, 1
  {
    var inner := IncreaseIndent(indent, false, place == InList, env.cfg);
    match tree
    case TList(items) => if items != [] { ItemsNode(p, items, inner, env); }
    case TObject(entries) => if entries != [] { EntriesNode(p, entries, inner, env); }
    case _ =>
      EmitScalarNode(p, LeafText(tree), LeafStyle(tree, env), place, false, indent, env.cfg);
  }

  lemma {:induction false} ItemsNode(p: Pen, items: seq<Tree>, indent: int, env: Env)
    requires ValidEnv(env) && ValidItems(items)
    ensures p.out <= EmitItems(p, items, indent, env).out && p.line <= EmitItems(p, items, indent, env).line
    ensures items != [] || Node(p, p) ==> Node(p, EmitItems(p, items, indent, env))
    decreases items, 0
  {
    if items != [] {
      var d := DashPen(p, indent);
      TreeNode(d, items[0], InList, indent, env);
      ItemsNode(EmitTree(d, items[0], InList, indent, env), items[1..], indent, env);
    }
  }

  lemma {:induction false} EntriesNode(p: Pen, entries: seq<Entry>, indent: int, env: Env)
    requires ValidEnv(env) && ValidEntries(entries)
    ensures p.out <= EmitEntries(p, entries, indent, env).out && p.line <= EmitEntries(p, entries, indent, env).line
    ensures entries != [] || Node(p, p) ==> Node(p, EmitEntries(p, entries, indent, env))
    decreases entries, 0
  {
    if entries != [] {
      EmitKeyGrows(p, entries[0].key, indent, env);
      var k := EmitKey(p, entries[0].key, indent, env);
      TreeNode(k, entries[0].value, InObject, indent, env);
      EntriesNode(EmitTree(k, entries[0].value, InObject, indent, env), entries[1..], indent, env);
    }
  }

  lemma ItemsBegin(p: Pen, items: seq<Tree>, indent: int, env: Env)
    requires ValidEnv(env) && ValidItems(items) && items != []
    ensures WriteIndent(p, indent).out <= DashPen(p, indent).out
    ensures DashPen(p, indent).out <= EmitTree(DashPen(p, indent), items[0], InList, indent, env).out
         <= EmitItems(p, items, indent, env).out
  {
    var d := DashPen(p, indent);
    TreeNode(d, items[0], InList, indent, env);
    ItemsNode(EmitTree(d, items[0], InList, indent, env), items[1..], indent, env);
  }

  lemma EntriesBegin(p: Pen, entries: seq<Entry>, indent: int, env: Env)
    requires ValidEnv(env) && ValidEntries(entries) && entries != []
    ensures var k := EmitKey(p, entries[0].key, indent, env);
      WriteIndent(p, indent).out <= k.out <= EmitTree(k, entries[0].value, InObject, indent, env).out
        <= EmitEntries(p, entries, indent, env).out
  {
    EmitKeyGrows(p, entries[0].key, indent, env);
    var k := EmitKey(p, entries[0].key, indent, env);
    TreeNode(k, entries[0].value, InObject, indent, env);
    EntriesNode(EmitTree(k, entries[0].value, InObject, indent, env), entries[1..], indent, env);
  }

  /** After an indicator, a node begins with a space or on a new line. */
  lemma BlankBeforeNode(t: string, p: Pen, tree: Tree, place: Place, indent: int, env: Env)
    requires ValidEnv(env) && ValidTree(tree) && !p.whitespace
    requires EmitTree(p, tree, place, indent, env).out <= t
    ensures IsBlankz(Ch(t, |p.out|))
  {
    var inner := IncreaseIndent(indent, false, place == InList, env.cfg);
    match tree
    case TList(items) =>
      if items == [] {
        SpaceWritten(t, p);
      } else {
        ItemsBegin(p, items, inner, env);
        BlankBeforeIndent(t, p, inner);
      }
    case TObject(entries) =>
      if entries == [] {
        SpaceWritten(t, p);
      } else {
        EntriesBegin(p, entries, inner, env);
        BlankBeforeIndent(t, p, inner);
      }
    case _ =>
      BlankBeforeScalar(t, p, LeafText(tree), LeafStyle(tree, env), place, false, indent, env.cfg);
  }

  lemma SpaceWritten(t: string, p: Pen)
    requires Put(p, ' ').out <= t
    ensures Ch(t, |p.out|) == ' '
  {
    ReadsAfter(t, p.out, " ");
    ReadsFirst(t, |p.out|, " ");
  }

  lemma BlankBeforeScalar(t: string, p: Pen, v: string, requested: Style, place: Place,
                          simpleKey: bool, indent: int, cfg: Config)
    requires ValidConfig(cfg) && (requested == Plain ==> v != "") && !p.whitespace
    requires EmitScalar(p, v, requested, place, simpleKey, indent, cfg).out <= t
    ensures Ch(t, |p.out|) == ' '
  {
    ScalarAfterSpace(p, v, SelectStyle(requested, v, simpleKey, false, cfg), place == Root, !simpleKey,
                     IncreaseIndent(indent, true, place == InList, cfg), cfg);
    SpaceWritten(t, p);
  }

  lemma ScalarAfterSpace(p: Pen, v: string, style: Style, root: bool, allow: bool, indent: int, cfg: Config)
    requires (style == Plain ==> v != "") && !p.whitespace
    ensures Put(p, ' ').out <= WriteScalar(p, v, style, root, allow, indent, cfg).out
  {
    match style
    case Plain =>
      PlainGrows(ScalarAt(p), v, 0, false, false, allow, indent, cfg);
    case SingleQuoted =>
      SingleGrows(WriteIndicator(p, "'", true, false, false), v, 0, false, false, allow, indent, cfg);
    case DoubleQuoted =>
      DoubleGrows(WriteIndicator(p, "\"", true, false, false), v, 0, false, allow, indent, cfg);
  }

  lemma BlankBeforeIndent(t: string, p: Pen, indent: int)
    requires !p.whitespace && WriteIndent(p, indent).out <= t
    ensures Ch(t, |p.out|) == ' ' || Ch(t, |p.out|) == '\n'
  {
    var n := Margin(indent);
    var w := if BreaksLine(p, n) then "\n" + Spaces(n) else Spaces(n - p.column);
    assert WriteIndent(p, indent).out == p.out + w;
    ReadsAfter(t, p.out, w);
    ReadsFirst(t, |p.out|, w);
  }
}
