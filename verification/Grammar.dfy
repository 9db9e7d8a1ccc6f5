/**
 The grammar that the parser is written for: what a derivation stands for as tokens, and as the
 node that its events describe.
 */
module Grammar {
  import opened Options
  import opened Resolve
  import opened Tokens
  import opened Parser
  import opened Composer

  datatype TagName = TagName(handle: string, suffix: string)

  /** properties: an anchor and a tag, in either order, or one of them, or none. */
  datatype Props = Props(anchor: Option<string>, tag: Option<TagName>, tagFirst: bool)

  const NO_PROPS := Props(None, None, false)

  datatype Syntax =
    | Nothing                                    // where the grammar lets a node be left out
    | AliasOf(name: string)
    | Bare(props: Props)                         // properties alone
    | Text(props: Props, value: string, style: Style)
    | BlockList(props: Props, items: seq<Syntax>)
    | PlainList(props: Props, items: seq<Syntax>)  // indentless_sequence
    | BlockMap(props: Props, parts: seq<Part>)
    | FlowList(props: Props, parts: seq<Part>, comma: bool)
    | FlowMap(props: Props, parts: seq<Part>, comma: bool)

  /** A flow node by itself, KEY and a node, or KEY, a node, VALUE and a node. */
  datatype Part = Single(node: Syntax) | Keyed(key: Syntax) | Both(key: Syntax, value: Syntax)

  // ---------- tokens ----------

  function AnchorTokens(p: Props): seq<Token> {
    if p.anchor.Some? then [AnchorToken(p.anchor.value)] else []
  }

  function TagTokens(p: Props): seq<Token> {
    if p.tag.Some? then [TagToken(p.tag.value.handle, p.tag.value.suffix)] else []
  }

  function PropTokens(p: Props): seq<Token> {
    if p.tagFirst then TagTokens(p) + AnchorTokens(p) else AnchorTokens(p) + TagTokens(p)
  }

  function PropsOf(x: Syntax): Props {
    if x.Nothing? || x.AliasOf? then NO_PROPS else x.props
  }

  function SynTokens(x: Syntax): seq<Token>
    decreases x, 3
  {
    PropTokens(PropsOf(x)) + ContentTokens(x)
  }

  function ContentTokens(x: Syntax): seq<Token>
    decreases x, 2
  {
    match x
    case Nothing => []
    case AliasOf(name) => [AliasToken(name)]
    case Bare(_) => []
    case Text(_, value, style) => [ScalarToken(value, style)]
    case BlockList(_, items) => [BlockSequenceStartToken] + DashTokens(items) + [BlockEndToken]
    case PlainList(_, items) => DashTokens(items)
    case BlockMap(_, parts) => [BlockMappingStartToken] + PairTokens(parts) + [BlockEndToken]
    case FlowList(_, parts, comma) => [FlowSequenceStartToken] + FlowTokens(parts, comma) + [FlowSequenceEndToken]
    case FlowMap(_, parts, comma) => [FlowMappingStartToken] + FlowTokens(parts, comma) + [FlowMappingEndToken]
  }

  function DashTokens(items: seq<Syntax>): seq<Token>
    decreases items, 0
  {
    if items == [] then [] else [BlockEntryToken] + SynTokens(items[0]) + DashTokens(items[1..])
  }

  function PartTokens(p: Part): seq<Token>
    decreases p, 4
  {
    match p
    case Single(node) => SynTokens(node)
    case Keyed(key) => [KeyToken] + SynTokens(key)
    case Both(key, value) => [KeyToken] + SynTokens(key) + ([ValueToken] + SynTokens(value))
  }

  function PairTokens(parts: seq<Part>): seq<Token>
    decreases parts, 0
  {
    if parts == [] then [] else PartTokens(parts[0]) + PairTokens(parts[1..])
  }

  /** With FLOW-ENTRY between the parts, and perhaps behind the last. */
  function FlowTokens(parts: seq<Part>, comma: bool): seq<Token>
    decreases parts, 0
  {
    if parts == [] then [] else PartTokens(parts[0]) + MoreTokens(parts[1..], comma)
  }

  function MoreTokens(parts: seq<Part>, comma: bool): seq<Token>
    decreases parts, 0
  {
    if parts == [] then (if comma then [FlowEntryToken] else [])
    else [FlowEntryToken] + PartTokens(parts[0]) + MoreTokens(parts[1..], comma)
  }

  // ---------- meaning ----------

  /** A tag's text: the suffix behind the prefix that its handle was declared for. */
  function TagText(ds: seq<TagDirective>, t: TagName): Option<string> {
    if t.handle == "" then Some(t.suffix)
    else
      match FindDirective(ds, t.handle)
      case None => None
      case Some(prefix) => Some(prefix + t.suffix)
  }

  function AnchorOf(p: Props): string {
    if p.anchor.Some? then p.anchor.value else ""
  }

  function TagOf(p: Props, ds: seq<TagDirective>): string {
    if p.tag.Some? && TagText(ds, p.tag.value).Some? then TagText(ds, p.tag.value).value else ""
  }

  const NULL_NODE := ScalarNode("", "", "", true)

  function SynNode(x: Syntax, ds: seq<TagDirective>): Node
    decreases x, 1
  {
    var anchor, tag := AnchorOf(PropsOf(x)), TagOf(PropsOf(x), ds);
    match x
    case Nothing => NULL_NODE
    case AliasOf(name) => AliasNode(name)
    case Bare(_) => ScalarNode(anchor, tag, "", tag == "")
    case Text(_, value, style) => ScalarNode(anchor, tag, value, (tag == "" && style == Plain) || tag == "!")
    case BlockList(_, items) => SequenceNode(anchor, tag, SynNodes(items, ds))
    case PlainList(_, items) => SequenceNode(anchor, tag, SynNodes(items, ds))
    case BlockMap(_, parts) => MappingNode(anchor, tag, PartPairs(parts, ds))
    case FlowList(_, parts, _) => SequenceNode(anchor, tag, PartNodes(parts, ds))
    case FlowMap(_, parts, _) => MappingNode(anchor, tag, PartPairs(parts, ds))
  }

  function SynNodes(items: seq<Syntax>, ds: seq<TagDirective>): seq<Node>
    decreases items, 0
  {
    if items == [] then [] else [SynNode(items[0], ds)] + SynNodes(items[1..], ds)
  }

  /** An entry of a mapping; what is left out is null. */
  function PartPair(p: Part, ds: seq<TagDirective>): Pair
    decreases p, 2
  {
    match p
    case Single(node) => Pair(SynNode(node, ds), NULL_NODE)
    case Keyed(key) => Pair(SynNode(key, ds), NULL_NODE)
    case Both(key, value) => Pair(SynNode(key, ds), SynNode(value, ds))
  }

  function PartPairs(parts: seq<Part>, ds: seq<TagDirective>): seq<Pair>
    decreases parts, 0
  {
    if parts == [] then [] else [PartPair(parts[0], ds)] + PartPairs(parts[1..], ds)
  }

  /** An item of a flow sequence; one with a key is a mapping of its own. */
  function PartNode(p: Part, ds: seq<TagDirective>): Node
    decreases p, 3
  {
    if p.Single? then SynNode(p.node, ds) else MappingNode("", "", [PartPair(p, ds)])
  }

  function PartNodes(parts: seq<Part>, ds: seq<TagDirective>): seq<Node>
    decreases parts, 0
  {
    if parts == [] then [] else [PartNode(parts[0], ds)] + PartNodes(parts[1..], ds)
  }

  // ---------- what the grammar allows ----------

  /** block_node, block_node_or_indentless_sequence, flow_node. */
  datatype Where = InBlock | InBlockMap | InFlow

  predicate LegalProps(p: Props, ds: seq<TagDirective>) {
    && (p.anchor.Some? ==> p.anchor.value != "")
    && (p.tag.Some? ==> TagOf(p, ds) != "")
  }

  predicate Legal(x: Syntax, place: Where, ds: seq<TagDirective>)
    decreases x, 3
  {
    && LegalProps(PropsOf(x), ds)
    && (match x
        case Nothing => true
        case AliasOf(_) => true
        case Bare(props) => props.anchor.Some? || props.tag.Some?
        case Text(_, _, _) => true
        case BlockList(_, items) => place != InFlow && LegalItems(items, ds)
        case PlainList(_, items) => place == InBlockMap && items != [] && LegalItems(items, ds)
        case BlockMap(_, parts) => place != InFlow && LegalParts(parts, InBlockMap, ds)
        case FlowList(_, parts, comma) => LegalParts(parts, InFlow, ds) && KeysThere(parts)
        case FlowMap(_, parts, comma) => LegalParts(parts, InFlow, ds))
  }

  predicate LegalItems(items: seq<Syntax>, ds: seq<TagDirective>)
    decreases items, 0
  {
    items == [] || (Legal(items[0], InBlock, ds) && LegalItems(items[1..], ds))
  }

  predicate LegalPart(p: Part, place: Where, ds: seq<TagDirective>)
    decreases p, 4
  {
    match p
    case Single(node) => place == InFlow && !node.Nothing? && Legal(node, place, ds)
    case Keyed(key) => Legal(key, place, ds)
    case Both(key, value) => Legal(key, place, ds) && Legal(value, place, ds)
  }

  predicate LegalParts(parts: seq<Part>, place: Where, ds: seq<TagDirective>)
    decreases parts, 0
  {
    parts == [] || (LegalPart(parts[0], place, ds) && LegalParts(parts[1..], place, ds))
  }

  /** The parser takes the token behind KEY in a flow sequence for a node, or drops it. */
  predicate KeysThere(parts: seq<Part>) {
    forall i :: 0 <= i < |parts| && !parts[i].Single? ==> !parts[i].key.Nothing?
  }

  /** What may come behind a node. */
  predicate Closes(t: Token) {
    || t.BlockEntryToken? || t.BlockEndToken? || t.KeyToken? || t.ValueToken?
    || t.FlowEntryToken? || t.FlowSequenceEndToken? || t.FlowMappingEndToken?
    || t.VersionDirectiveToken? || t.TagDirectiveToken? || t.DocumentStartToken? || t.DocumentEndToken?
    || t.StreamEndToken?
  }

  predicate MayFollow(rest: seq<Token>, place: Where) {
    && rest != [] && Closes(rest[0])
    && (place == InBlockMap ==> rest[0].KeyToken? || rest[0].ValueToken? || rest[0].BlockEndToken?)
  }

  /** What a node begins with. */
  predicate Starts(t: Token) {
    || t.AliasToken? || t.AnchorToken? || t.TagToken? || t.ScalarToken?
    || t.FlowSequenceStartToken? || t.FlowMappingStartToken?
    || t.BlockSequenceStartToken? || t.BlockMappingStartToken?
  }

  lemma FirstOf(x: Syntax, place: Where, ds: seq<TagDirective>)
    requires Legal(x, place, ds) && !x.Nothing?
    ensures SynTokens(x) != []
    ensures Starts(SynTokens(x)[0]) || (place == InBlockMap && SynTokens(x)[0].BlockEntryToken?)
  {
    hide SynNode, DashTokens, PairTokens, FlowTokens, LegalItems, LegalParts, LegalProps, KeysThere;
    var p := PropsOf(x);
    PropsFirst(p);
    if PropTokens(p) == [] {
      assert SynTokens(x) == ContentTokens(x);
      FirstOfContent(x);
    }
  }

  lemma PropsFirst(p: Props)
    ensures PropTokens(p) != [] ==> PropTokens(p)[0].AnchorToken? || PropTokens(p)[0].TagToken?
    ensures PropTokens(p) == [] <==> p.anchor.None? && p.tag.None?
  {
  }

  lemma FirstOfContent(x: Syntax)
    requires !x.Nothing? && !x.Bare? && (x.PlainList? ==> x.items != [])
    ensures ContentTokens(x) != []
    ensures if x.PlainList? then ContentTokens(x)[0].BlockEntryToken? else Starts(ContentTokens(x)[0])
    ensures !ContentTokens(x)[0].AnchorToken? && !ContentTokens(x)[0].TagToken?
    ensures !x.AliasOf? ==> !ContentTokens(x)[0].AliasToken?
  {
  }
}
