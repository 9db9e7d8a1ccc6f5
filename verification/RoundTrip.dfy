/**
 The whole pipeline: a JSON document that is printed as YAML and read back, through emitter,
 scanner, parser and reader, is the same document.
 */
module RoundTrip {
  import opened Chars
  import opened Unicode
  import opened Decoding
  import opened PrintedText
  import opened Pens
  import opened Analysis
  import opened Options
  import opened Resolve
  import opened Tokens
  import opened Layout
  import opened LayoutTokens
  import opened Scanner
  import opened ScanStream
  import opened DemandScan
  import opened DemandKept
  import opened Parser
  import opened ParserSafety
  import opened ParserRuns
  import opened Composer
  import opened TreeParse
  import opened Grammar
  import E = Emitter
  import G = GrammarStream
  import EmitterRun

  // ---------- parsing the document ----------

  function DocumentEvents(tree: Tree, env: Env): seq<Event> {
    [StreamStart, DocumentStart] + NodeEvents(NodeOf(tree, env)) + [DocumentEnd, StreamEnd]
  }

  lemma DocumentParsed(tree: Tree, env: Env)
    ensures Good(StartMachine(DocumentTokens(tree, env)))
    ensures var r := ParseAll(StartMachine(DocumentTokens(tree, env)));
      r.events == DocumentEvents(tree, env) && r.finish.Complete?
  {
    hide SyntaxOf, TreeTokens, SynTokens, SynNode, Legal, NodeOf, NodeEvents, RootIsPlain, WithDefaults, ParseAll;
    var x := SyntaxOf(tree, env);
    var d := G.Document(false, [], x, if RootIsPlain(tree, env) then 1 else 0);
    TreeDerived(tree, env, WithDefaults([]));
    assert G.Prefixes([]) == [];
    G.StreamParsed([d]);
    OneDocument(d, WithDefaults([]));
    Ends();
    assert G.EndTokens(d.ends) + [StreamEndToken]
        == if RootIsPlain(tree, env) then [DocumentEndToken, StreamEndToken] else [StreamEndToken];
    assert G.StreamTokens([d]) == DocumentTokens(tree, env);
    assert G.StreamEvents([d]) == DocumentEvents(tree, env);
  }

  lemma OneDocument(d: G.Document, ds: seq<TagDirective>)
    requires !d.explicit && d.directives == [] && ds == WithDefaults([])
    ensures G.StreamTokens([d]) == [StreamStartToken] + SynTokens(d.content) + (G.EndTokens(d.ends) + [StreamEndToken])
    ensures G.StreamEvents([d])
        == [StreamStart, DocumentStart] + NodeEvents(SynNode(d.content, ds)) + [DocumentEnd, StreamEnd]
  {
    hide SynTokens, SynNode, NodeEvents, G.EndTokens, WithDefaults;
    assert [d][1..] == [];
    assert G.DocumentsTokens([]) == [] && G.DocumentsEvents([]) == [];
    assert G.DirectiveTokens([]) == [] && G.Prefixes([]) == [];
    assert G.DocumentTokens(d) == SynTokens(d.content) + G.EndTokens(d.ends);
  }

  lemma Ends()
    ensures G.EndTokens(0) == [] && G.EndTokens(1) == [DocumentEndToken]
  {
    assert G.EndTokens(0) == [];
  }

  // ---------- the value of a tree ----------

  /** The number a JSON number is read as. */
  function NumberValue(text: string, nums: Numbers): Value {
    if (nums.parseInt)(text).Some? then VInt((nums.parseInt)(text).value)
    else
      match (nums.parseFloat)(text)
      case Finite(x) => VFloat(x)
      case _ => VNull
  }

  function ValueOf(tree: Tree, nums: Numbers): Value
    decreases tree, 1
  {
    match tree
    case TNull => VNull
    case TBool(b) => VBool(b)
    case TNumber(text) => NumberValue(text, nums)
    case TString(s) => VString(s)
    case TList(items) => VList(ValuesOf(items, nums))
    case TObject(entries) => VObject(MembersOf(entries, map[], nums))
  }

  function ValuesOf(items: seq<Tree>, nums: Numbers): seq<Value>
    decreases items, 0
  {
    if items == [] then [] else [ValueOf(items[0], nums)] + ValuesOf(items[1..], nums)
  }

  function MembersOf(entries: seq<Entry>, before: map<string, Value>, nums: Numbers): map<string, Value>
    decreases entries, 0
  {
    if entries == [] then before
    else MembersOf(entries[1..], before[entries[0].key := ValueOf(entries[0].value, nums)], nums)
  }

  /** Every number of the tree passes the check made before it is printed. */
  ghost predicate Accepted(tree: Tree, nums: Numbers)
    decreases tree, 1
  {
    match tree
    case TNumber(text) => NumberAccepted(text, nums)
    case TList(items) => ItemsAccepted(items, nums)
    case TObject(entries) => EntriesAccepted(entries, nums)
    case _ => true
  }

  ghost predicate ItemsAccepted(items: seq<Tree>, nums: Numbers)
    decreases items, 0
  {
    items == [] || (Accepted(items[0], nums) && ItemsAccepted(items[1..], nums))
  }

  ghost predicate EntriesAccepted(entries: seq<Entry>, nums: Numbers)
    decreases entries, 0
  {
    entries == [] || (Accepted(entries[0].value, nums) && EntriesAccepted(entries[1..], nums))
  }

  // ---------- scalars ----------

  function JsonEnv(cfg: Config, nums: Numbers): Env {
    Env(cfg, (s: string) => StringStyle(s, nums))
  }

  /** JSON's words and numbers may stand plainly in a block. */
  lemma NumberIsPlain(s: string, cfg: Config)
    requires NumberText(s)
    ensures BlockPlainAllowed(s, cfg)
  {
    assert s[0] in "0123456789-" && (s[0] == '-' ==> '0' <= s[1] <= '9');
    forall i | 0 <= i < |s| ensures PlainLetter(s[i]) {
      assert s[i] in "0123456789+-.eE";
    }
    LettersArePlain(s, cfg);
  }

  /** Unremarkable wherever it stands, except perhaps as the first character. */
  predicate PlainLetter(c: char) {
    '0' <= c <= '9' || 'A' <= c <= 'Z' || 'a' <= c <= 'z' || c in "+-."
  }

  lemma LettersArePlain(s: string, cfg: Config)
    requires s != "" && s[0] != '.' && (s[0] == '-' ==> |s| > 1 && '0' <= s[1] <= '9')
    requires forall i :: 0 <= i < |s| ==> PlainLetter(s[i])
    ensures BlockPlainAllowed(s, cfg)
  {
    forall i | 0 <= i < |s| ensures SingleFits(s, i, cfg) && !IsBreak(s[i]) && !BlockIndicatorAt(s, i) {
      assert PlainLetter(s[i]);
      if i > 0 { assert PlainLetter(s[i - 1]); }
      if i + 1 < |s| { assert PlainLetter(s[i + 1]); }
    }
    assert PlainLetter(s[|s| - 1]);
  }

  lemma WordIsPlain(s: string, cfg: Config)
    requires s in {"null", "true", "false"}
    ensures BlockPlainAllowed(s, cfg)
  {
    LettersArePlain(s, cfg);
  }

  lemma {:induction false} NothingToClean(s: string)
    requires forall i :: 0 <= i < |s| ==> s[i] != '_'
    ensures CleanNumber(s) == s
  {
    if s != "" {
      NothingToClean(s[1..]);
      assert s == [s[0]] + s[1..];
    }
  }

  /** A JSON number that is no integer has a point or an exponent. */
  lemma IntegerOrFloatLike(s: string)
    requires NumberText(s)
    ensures IntegerScalar(s) || FloatLike(s)
  {
    if !IntegerScalar(s) {
      var start := if s[0] == '-' then 1 else 0;
      var i :| start <= i < |s| && !(s[i] == '_' || '0' <= s[i] <= '9');
      assert s[i] in "0123456789+-.eE" && s[0] in "0123456789-";
      assert s[i] in "+-.eE";
      var j := if s[i] in "+-" then i - 1 else i;
      assert s[j] in ".eE";
    }
  }

  lemma NumberReadBack(s: string, nums: Numbers)
    requires NumberText(s) && NumberAccepted(s, nums)
    ensures ResolvePlain(s, nums) == Ok(NumberValue(s, nums))
    ensures NumberValue(s, nums).VInt? || NumberValue(s, nums).VFloat?
  {
    assert s[0] in "0123456789-";
    NothingToClean(s);
    IntegerOrFloatLike(s);
    NotAWord(s);
  }

  /** No number is one of the words that null, booleans and non-finite floats are written with. */
  lemma NotAWord(s: string)
    requires NumberText(s)
    ensures !NullScalar(s) && BoolScalar(s).None? && !IsNonFinite(s)
  {
    hide BoolScalar;
    assert Lower(s[0]) == s[0] && s[0] in "0123456789-";
    if |s| > 1 && s[0] == '-' { assert Lower(s[1]) == s[1]; }
    if BoolScalar(s).Some? { WordStarts(s); }
  }

  lemma WordStarts(s: string)
    requires BoolScalar(s).Some?
    ensures s != "" && s[0] in "yYtToOnNfF"
  {
  }

  lemma WordsReadBack(nums: Numbers)
    ensures ResolvePlain("null", nums) == Ok(VNull)
    ensures ResolvePlain("true", nums) == Ok(VBool(true))
    ensures ResolvePlain("false", nums) == Ok(VBool(false))
  {
    assert NullScalar("null");
    assert Lower("true"[0]) == 't' && Lower("false"[0]) == 'f';
  }

  /** A string is written plainly only if it is read back as a string. */
  lemma StringReadBack(s: string, style: Style, nums: Numbers)
    requires style == Plain ==> StringStyle(s, nums) == Plain
    ensures ScalarValue(s, "", style == Plain, nums) == Ok(VString(s))
  {
    PlainStringIsItself(s, nums);
  }

  lemma LeafReadBack(tree: Tree, cfg: Config, nums: Numbers)
    requires IsLeaf(tree) && ValidTree(tree) && Accepted(tree, nums)
    ensures var t := LeafToken(tree, JsonEnv(cfg, nums));
      ScalarValue(t.value, "", PlainToken(t), nums) == Ok(ValueOf(tree, nums))
  {
    hide BlockPlainAllowed, ResolvePlain, StringStyle;
    match tree
    case TNull => WordIsPlain("null", cfg); WordsReadBack(nums);
    case TBool(b) => WordIsPlain(if b then "true" else "false", cfg); WordsReadBack(nums);
    case TNumber(text) => NumberIsPlain(text, cfg); NumberReadBack(text, nums);
    case TString(s) => StringReadBack(s, LeafToken(tree, JsonEnv(cfg, nums)).style, nums);
  }

  lemma KeyReadBack(key: string, cfg: Config, lib: Library, anchors: Anchors)
    ensures Denote(KeyNode(key, JsonEnv(cfg, lib.numbers)), anchors, lib) == Ok(Denoted(VString(key), anchors))
  {
    hide StringStyle, BlockPlainAllowed, ScalarValue;
    var t := KeyScalar(key, JsonEnv(cfg, lib.numbers));
    StringReadBack(key, t.style, lib.numbers);
  }

  // ---------- trees ----------

  lemma {:induction false} TreeReadBack(tree: Tree, cfg: Config, lib: Library, anchors: Anchors)
    requires ValidTree(tree) && Accepted(tree, lib.numbers)
    ensures Denote(NodeOf(tree, JsonEnv(cfg, lib.numbers)), anchors, lib)
         == Ok(Denoted(ValueOf(tree, lib.numbers), anchors))
    decreases tree, 1
  {
    hide LeafToken, ScalarValue;
    match tree
    case TList(items) => ItemsReadBack(items, cfg, lib, anchors);
    case TObject(entries) => EntriesReadBack(entries, cfg, lib, anchors, map[]);
    case _ => LeafReadBack(tree, cfg, lib.numbers); LeafNode(tree, JsonEnv(cfg, lib.numbers));
  }

  lemma LeafNode(tree: Tree, env: Env)
    requires IsLeaf(tree)
    ensures NodeOf(tree, env)
         == ScalarNode("", "", LeafToken(tree, env).value, PlainToken(LeafToken(tree, env)))
  {
  }

  lemma {:induction false} ItemsReadBack(items: seq<Tree>, cfg: Config, lib: Library, anchors: Anchors)
    requires ValidItems(items) && ItemsAccepted(items, lib.numbers)
    ensures DenoteItems(NodesOf(items, JsonEnv(cfg, lib.numbers)), anchors, lib)
         == Ok((ValuesOf(items, lib.numbers), anchors))
    decreases items, 0
  {
    hide Denote, NodeOf, ValueOf;
    if items != [] {
      var env := JsonEnv(cfg, lib.numbers);
      TreeReadBack(items[0], cfg, lib, anchors);
      ItemsReadBack(items[1..], cfg, lib, anchors);
      assert NodesOf(items, env)[0] == NodeOf(items[0], env);
      assert NodesOf(items, env)[1..] == NodesOf(items[1..], env);
    }
  }

  lemma {:induction false} EntriesReadBack(entries: seq<Entry>, cfg: Config, lib: Library, anchors: Anchors,
                                           before: map<string, Value>)
    requires ValidEntries(entries) && EntriesAccepted(entries, lib.numbers)
    ensures DenotePairs(PairsOf(entries, JsonEnv(cfg, lib.numbers)), anchors, before, lib)
         == Ok(Denoted(VObject(MembersOf(entries, before, lib.numbers)), anchors))
    decreases entries, 0
  {
    hide Denote, NodeOf, ValueOf, KeyNode;
    if entries != [] {
      var env := JsonEnv(cfg, lib.numbers);
      var key, value := entries[0].key, entries[0].value;
      TreeReadBack(value, cfg, lib, anchors);
      KeyReadBack(key, cfg, lib, anchors);
      var pairs := PairsOf(entries, env);
      assert pairs[0] == Pair(KeyNode(key, env), NodeOf(value, env)) && pairs[1..] == PairsOf(entries[1..], env);
      assert DenotePair(pairs[0], anchors, lib) == Ok((key, Denoted(ValueOf(value, lib.numbers), anchors)));
      EntriesReadBack(entries[1..], cfg, lib, anchors, before[key := ValueOf(value, lib.numbers)]);
    }
  }

  // ---------- the round trip ----------

  /** What is printed for a JSON document: the bytes its events leave behind in the emitter. */
  function Printed(tree: Tree, cfg: Config, nums: Numbers): Result<seq<byte>, E.Outcome>
    requires ValidConfig(cfg)
  {
    var events := EmitterRun.DocumentEvents(tree, JsonEnv(cfg, nums));
    match E.EmitAll(E.Queued(E.StartMachine, []), events, cfg)
    case Err(o) => Err(o)
    case Ok(q) => Ok(EncodeAll(q.machine.pen.out))
  }

  /**
   The bytes read back: decoded, scanned as the parser asks for tokens, parsed event by event, and
   composed. The events are those of the tokens there are, so that only what the first document
   needs matters; where they end too early, the scanner or the parser stopped.
   */
  function ReadBack(bytes: seq<byte>, lib: Library): Result<Value, Failure> {
    var decoded := DecodeStream(bytes);
    if decoded.end.Some? then Err(ParserStopped)
    else Read(ScanAll(decoded.text).Tokens(), lib)
  }

  function Read(tokens: seq<Token>, lib: Library): Result<Value, Failure> {
    RunSound(StartMachine(tokens));
    ReadDocument(ParseAll(StartMachine(tokens)).events, lib)
  }

  lemma DocumentDenotes(tree: Tree, cfg: Config, lib: Library)
    requires ValidTree(tree) && Accepted(tree, lib.numbers)
    ensures ReadDocument(DocumentEvents(tree, JsonEnv(cfg, lib.numbers)), lib) == Ok(ValueOf(tree, lib.numbers))
  {
    hide NodeEvents, NodeOf, Denote, ParseValue;
    var env := JsonEnv(cfg, lib.numbers);
    var n := NodeOf(tree, env);
    var es := DocumentEvents(tree, env);
    TreeReadBack(tree, cfg, lib, map[]);
    assert es[2..] == NodeEvents(n) + [DocumentEnd, StreamEnd];
    FirstNode(n, es[2..], [DocumentEnd, StreamEnd], map[], lib);
    assert es[2..][1..] == es[3..];
  }

  /**
   Printing and reading are inverse: every JSON document, at any width and indentation, is read
   back from its printed form as itself. Strings come back as the same strings, whatever their
   characters and whatever they look like; numbers, booleans and null come back as such; and
   lists and objects nest as they did.
   */
  lemma PrintedIsReadBack(tree: Tree, cfg: Config, lib: Library)
    requires ValidConfig(cfg) && ValidTree(tree) && Accepted(tree, lib.numbers)
    requires Depth(tree) <= MAX_INDENTS
    ensures var bytes := Printed(tree, cfg, lib.numbers);
      && bytes.Ok?
      && ReadBack(bytes.value, lib) == Ok(ValueOf(tree, lib.numbers))
  {
    hide E.EmitAll, EmitterRun.DocumentEvents, EmitDocument, DocumentTokens, DeliverFrom, ParseAll, ReadDocument,
      DocumentEvents, Depth, ValueOf, DecodeStream, EncodeAll;
    var env := JsonEnv(cfg, lib.numbers);
    EmitterRun.DocumentEmitted(tree, env);
    PrintedIsDecoded(tree, env);
    DocumentDelivered(tree, env);
    DocumentParsed(tree, env);
    DocumentDenotes(tree, cfg, lib);
  }

  lemma PrintedIsDecoded(tree: Tree, env: Env)
    requires ValidEnv(env)
    ensures DecodeStream(EncodeAll(EmitDocument(tree, env).out)) == Decoded(EmitDocument(tree, env).out, None)
  {
    hide EmitDocument;
    var text := EmitDocument(tree, env).out;
    DocumentClean(tree, env);
    assert text == "" || CleanChar(text[0]);
    StreamsDecoded(Utf8, text);
  }
}
