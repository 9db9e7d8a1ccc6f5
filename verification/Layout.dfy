/**
 What the emitter writes for a JSON tree, told by the structure of the tree. That the
 event-driven emitter writes just this is proved about its state machine.
 */
module Layout {
  import opened Chars
  import opened Pens
  import opened Analysis
  import opened ScalarWriters
  import opened Resolve
  import opened Tokens
  import Unicode

  /** The settings, and the style asked for a string; no style but a quoted one suits "". */
  datatype Env = Env(cfg: Config, styleOf: string -> Style)

  ghost predicate ValidEnv(env: Env) {
    ValidConfig(env.cfg) && env.styleOf("") != Plain
  }

  /** Where a node stands. */
  datatype Place = Root | InList | InObject

  function SelectStyle(requested: Style, v: string, simpleKey: bool, inFlow: bool, cfg: Config): Style {
    var a := Analyze(v, cfg);
    var s1 := if simpleKey && a.multiline then DoubleQuoted else requested;
    var plainAllowed := if inFlow then a.flowPlainAllowed else a.blockPlainAllowed;
    var s2 := if s1 == Plain && (!plainAllowed || (v == "" && (inFlow || simpleKey)))
              then SingleQuoted else s1;
    if s2 == SingleQuoted && !a.singleQuotedAllowed then DoubleQuoted else s2
  }

  function WriteScalar(p: Pen, v: string, style: Style, root: bool, allow: bool,
                       indent: int, cfg: Config): Pen
  {
    match style
    case Plain => WritePlain(p, v, root, allow, indent, cfg)
    case SingleQuoted => WriteSingle(p, v, allow, indent, cfg)
    case DoubleQuoted => WriteDouble(p, v, allow, indent, cfg)
  }

  function EmitScalar(p: Pen, v: string, requested: Style, place: Place, simpleKey: bool,
                      indent: int, cfg: Config): Pen
    requires ValidConfig(cfg)
  {
    WriteScalar(p, v, SelectStyle(requested, v, simpleKey, false, cfg), place == Root, !simpleKey,
                IncreaseIndent(indent, true, place == InList, cfg), cfg)
  }

  /** The scalars of JSON and the style asked for. */
  predicate IsLeaf(tree: Tree) {
    !tree.TList? && !tree.TObject?
  }

  function LeafText(tree: Tree): string
    requires IsLeaf(tree)
  {
    match tree
    case TNull => "null"
    case TBool(b) => if b then "true" else "false"
    case TNumber(text) => text
    case TString(s) => s
  }

  function LeafStyle(tree: Tree, env: Env): Style
    requires IsLeaf(tree)
  {
    if tree.TString? then env.styleOf(tree.s) else Plain
  }

  /** A key short enough, and on one line, is written without '?'. */
  predicate SimpleKeyAllowed(key: string) {
    !HasBreak(key) && Unicode.EncodedLength(key) <= 128
  }

  function EmitTree(p: Pen, tree: Tree, place: Place, indent: int, env: Env): Pen
    requires ValidEnv(env)
    decreases tree, 1
  {
    var inner := IncreaseIndent(indent, false, place == InList, env.cfg);
    match tree
    case TList(items) =>
      if items == [] then EmitEmpty(p, "[", "]") else EmitItems(p, items, inner, env)
    case TObject(entries) =>
      if entries == [] then EmitEmpty(p, "{", "}") else EmitEntries(p, entries, inner, env)
    case _ =>
      EmitScalar(p, LeafText(tree), LeafStyle(tree, env), place, false, indent, env.cfg)
  }

  function EmitEmpty(p: Pen, open: string, close: string): Pen {
    WriteIndicator(WriteIndicator(p, open, true, true, false), close, false, false, false)
  }

  function DashPen(p: Pen, indent: int): Pen {
    WriteIndicator(WriteIndent(p, indent), "-", true, false, true)
  }

  function EmitItems(p: Pen, items: seq<Tree>, indent: int, env: Env): Pen
    requires ValidEnv(env)
    decreases items, 0
  {
    if items == [] then p
    else EmitItems(EmitTree(DashPen(p, indent), items[0], InList, indent, env), items[1..], indent, env)
  }

  /** The key and the ':' after it. */
  function EmitKey(p: Pen, key: string, indent: int, env: Env): Pen
    requires ValidEnv(env)
  {
    var style := env.styleOf(key);
    var q := WriteIndent(p, indent);
    if SimpleKeyAllowed(key) then
      WriteIndicator(EmitScalar(q, key, style, InObject, true, indent, env.cfg), ":", false, false, false)
    else
      var r := EmitScalar(WriteIndicator(q, "?", true, false, true), key, style, InObject, false, indent, env.cfg);
      WriteIndicator(WriteIndent(r, indent), ":", true, false, true)
  }

  function EmitEntries(p: Pen, entries: seq<Entry>, indent: int, env: Env): Pen
    requires ValidEnv(env)
    decreases entries, 0
  {
    if entries == [] then p
    else
      var q := EmitKey(p, entries[0].key, indent, env);
      EmitEntries(EmitTree(q, entries[0].value, InObject, indent, env), entries[1..], indent, env)
  }

  /** A whole stream: a root scalar left open is closed by a document end marker. */
  function EmitDocument(tree: Tree, env: Env): Pen
    requires ValidEnv(env)
  {
    var p := WriteIndent(EmitTree(StartPen, tree, Root, -1, env), -1);
    if p.openEnded then WriteIndent(WriteIndicator(p, "...", true, false, false), -1) else p
  }
}
