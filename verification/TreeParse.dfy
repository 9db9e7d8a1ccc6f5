/** The tokens of a JSON tree are a derivation of the parser's grammar, and stand for that tree. */
module TreeParse {
  import opened Options
  import opened Resolve
  import opened Tokens
  import opened Layout
  import opened LayoutTokens
  import opened Parser
  import opened Composer
  import opened Grammar

  // ---------- the tree as the reader sees it ----------

  function PlainToken(t: Token): bool
    requires t.ScalarToken?
  {
    t.style == Plain
  }

  function KeyNode(key: string, env: Env): Node {
    ScalarNode("", "", key, PlainToken(KeyScalar(key, env)))
  }

  function NodeOf(tree: Tree, env: Env): Node
    decreases tree, 1
  {
    match tree
    case TList(items) => SequenceNode("", "", NodesOf(items, env))
    case TObject(entries) => MappingNode("", "", PairsOf(entries, env))
    case _ => ScalarNode("", "", LeafText(tree), PlainToken(LeafToken(tree, env)))
  }

  function NodesOf(items: seq<Tree>, env: Env): seq<Node>
    decreases items, 0
  {
    if items == [] then [] else [NodeOf(items[0], env)] + NodesOf(items[1..], env)
  }

  function PairsOf(entries: seq<Entry>, env: Env): seq<Pair>
    decreases entries, 0
  {
    if entries == [] then []
    else [Pair(KeyNode(entries[0].key, env), NodeOf(entries[0].value, env))] + PairsOf(entries[1..], env)
  }

  // ---------- the tree as the grammar derives it ----------

  function Scalar(token: Token): Syntax
    requires token.ScalarToken?
  {
    Text(NO_PROPS, token.value, token.style)
  }

  function SyntaxOf(tree: Tree, env: Env): Syntax
    decreases tree, 1
  {
    match tree
    case TList(items) =>
      if items == [] then FlowList(NO_PROPS, [], false) else BlockList(NO_PROPS, SyntaxesOf(items, env))
    case TObject(entries) =>
      if entries == [] then FlowMap(NO_PROPS, [], false) else BlockMap(NO_PROPS, PartsOf(entries, env))
    case _ => Scalar(LeafToken(tree, env))
  }

  function SyntaxesOf(items: seq<Tree>, env: Env): seq<Syntax>
    decreases items, 0
  {
    if items == [] then [] else [SyntaxOf(items[0], env)] + SyntaxesOf(items[1..], env)
  }

  function PartsOf(entries: seq<Entry>, env: Env): seq<Part>
    decreases entries, 0
  {
    if entries == [] then []
    else
      [Both(Scalar(KeyScalar(entries[0].key, env)), SyntaxOf(entries[0].value, env))] + PartsOf(entries[1..], env)
  }

  lemma NoProps(x: Syntax)
    requires PropsOf(x) == NO_PROPS
    ensures SynTokens(x) == ContentTokens(x) && AnchorOf(PropsOf(x)) == ""
    ensures forall ds :: TagOf(PropsOf(x), ds) == "" && LegalProps(PropsOf(x), ds)
  {
    hide ContentTokens;
    assert PropTokens(NO_PROPS) == [];
  }

  /** The tokens of a tree are those of its derivation, which is legal and stands for the tree's node. */
  lemma {:induction false} TreeDerived(tree: Tree, env: Env, ds: seq<TagDirective>)
    ensures var x := SyntaxOf(tree, env);
      && SynTokens(x) == TreeTokens(tree, env) && Legal(x, InBlock, ds) && Legal(x, InBlockMap, ds) && !x.Nothing?
      && SynNode(x, ds) == NodeOf(tree, env)
    decreases tree, 1
  {
    hide TagOf, DashTokens, PairTokens, SynNodes, PartPairs, LegalItems, LegalParts, LegalProps, KeyScalar,
      ItemTokens, EntryTokens, NodesOf, PairsOf;
    NoProps(SyntaxOf(tree, env));
    match tree
    case TList(items) =>
      ItemsDerived(items, env, ds);
      NothingDerived(ds);
    case TObject(entries) =>
      EntriesDerived(entries, env, ds);
      NothingDerived(ds);
    case _ =>
  }

  lemma NothingDerived(ds: seq<TagDirective>)
    ensures SynNodes([], ds) == [] && PartNodes([], ds) == [] && PartPairs([], ds) == []
    ensures LegalParts([], InFlow, ds) && FlowTokens([], false) == []
  {
  }

  lemma {:induction false} ItemsDerived(items: seq<Tree>, env: Env, ds: seq<TagDirective>)
    ensures DashTokens(SyntaxesOf(items, env)) == ItemTokens(items, env) && LegalItems(SyntaxesOf(items, env), ds)
    ensures SynNodes(SyntaxesOf(items, env), ds) == NodesOf(items, env)
    decreases items, 0
  {
    hide SyntaxOf, SynTokens, Legal, SynNode, TreeTokens, NodeOf;
    if items != [] {
      TreeDerived(items[0], env, ds);
      ItemsDerived(items[1..], env, ds);
      var xs := SyntaxesOf(items, env);
      assert xs[0] == SyntaxOf(items[0], env) && xs[1..] == SyntaxesOf(items[1..], env);
    }
  }

  lemma {:induction false} EntriesDerived(entries: seq<Entry>, env: Env, ds: seq<TagDirective>)
    ensures PairTokens(PartsOf(entries, env)) == EntryTokens(entries, env)
    ensures LegalParts(PartsOf(entries, env), InBlockMap, ds)
    ensures PartPairs(PartsOf(entries, env), ds) == PairsOf(entries, env)
    decreases entries, 0
  {
    hide SyntaxOf, SynTokens, Legal, SynNode, TreeTokens, NodeOf;
    if entries != [] {
      var parts := PartsOf(entries, env);
      TreeDerived(entries[0].value, env, ds);
      EntriesDerived(entries[1..], env, ds);
      assert parts[1..] == PartsOf(entries[1..], env);
      KeyDerived(entries[0].key, env, ds);
      var key, value := parts[0].key, parts[0].value;
      assert parts[0] == Both(Scalar(KeyScalar(entries[0].key, env)), SyntaxOf(entries[0].value, env));
      assert PartTokens(parts[0])
          == [KeyToken, KeyScalar(entries[0].key, env), ValueToken] + TreeTokens(entries[0].value, env);
    }
  }

  lemma KeyDerived(key: string, env: Env, ds: seq<TagDirective>)
    ensures var x := Scalar(KeyScalar(key, env));
      SynTokens(x) == [KeyScalar(key, env)] && Legal(x, InBlockMap, ds) && SynNode(x, ds) == KeyNode(key, env)
  {
    NoProps(Scalar(KeyScalar(key, env)));
  }
}
