/** JSON text is YAML: every JSON document that is a list or an object is read as its own value. */
module JsonRead {
  import opened Chars
  import opened Unicode
  import opened Decoding
  import opened Options
  import opened Resolve
  import opened Tokens
  import opened Composer
  import opened Parser
  import opened Spelling
  import opened LayoutTokens
  import opened Grammar
  import opened FlowText
  import opened FlowTrees
  import opened RoundTrip
  import Scanner

  // ---------- JSON as flow collections ----------

  /** Four digits to the base 16. */
  function CodeDigits(x: nat): (ds: seq<HexDigit>)
    requires x < 0x1_0000
    ensures |ds| == 4 && DigitsOk(ds)
  {
    [HexDigit(x / 4096, false), HexDigit(x / 256 % 16, false), HexDigit(x / 16 % 16, false), HexDigit(x % 16, false)]
  }

  /** May stand unescaped in a JSON string, and pass the reader. */
  predicate Unescaped(c: char) {
    Readable(c as int) && !IsBreak(c) && c != '"' && c != '\\'
  }

  function JsonUnit(c: char): Unit {
    if Unescaped(c) || c as int >= 0x1_0000 then Raw(c) else Coded(CodeDigits(c as int))
  }

  function JsonUnits(s: string): seq<Unit> {
    if s == "" then [] else [JsonUnit(s[0])] + JsonUnits(s[1..])
  }

  function JsonString(s: string): Form {
    QuotedForm(false, JsonUnits(s))
  }

  function JsonTree(tree: Tree): FlowTree
    decreases tree, 1
  {
    match tree
    case TNull => Leaf("", PlainForm("null"))
    case TBool(b) => Leaf("", PlainForm(if b then "true" else "false"))
    case TNumber(text) => Leaf("", PlainForm(text))
    case TString(s) => Leaf("", JsonString(s))
    case TList(items) => Sequence("", JsonItems(items))
    case TObject(entries) => Mapping("", JsonEntries(entries))
  }

  function JsonItems(items: seq<Tree>): seq<FlowTree>
    decreases items, 0
  {
    if items == [] then [] else [JsonTree(items[0])] + JsonItems(items[1..])
  }

  function JsonEntries(entries: seq<Entry>): seq<FlowEntry>
    decreases entries, 0
  {
    if entries == [] then []
    else [FlowEntry(JsonString(entries[0].key), JsonTree(entries[0].value))] + JsonEntries(entries[1..])
  }

  // ---------- strings ----------

  lemma CodeValue(x: nat)
    requires x < 0x1_0000
    ensures DigitsValue(CodeDigits(x)) == x
  {
    var ds := CodeDigits(x);
    assert ds[..3][..2] == ds[..2] && ds[..3][..2][..1] == ds[..1] && ds[..2][..1] == ds[..1] && ds[..1][..0] == [];
    assert DigitsValue(ds[..1]) == ds[0].value;
    assert DigitsValue(ds[..2]) == ds[0].value * 16 + ds[1].value;
    assert DigitsValue(ds[..3]) == (ds[0].value * 16 + ds[1].value) * 16 + ds[2].value;
  }

  lemma UnitIsChar(c: char)
    ensures UnitOk(JsonUnit(c), false) && UnitChar(JsonUnit(c), false) == c
  {
    if !Unescaped(c) && (c as int) < 0x1_0000 { CodeValue(c as int); }
  }

  lemma {:induction false} UnitsAreString(s: string)
    ensures UnitsOk(JsonUnits(s), false) && UnitsValue(JsonUnits(s), false) == s
  {
    hide UnitOk, UnitChar, JsonUnit;
    if s != "" {
      UnitIsChar(s[0]);
      UnitsAreString(s[1..]);
      assert JsonUnits(s)[1..] == JsonUnits(s[1..]);
    }
  }

  lemma NumberIsFlowPlain(s: string)
    requires LayoutTokens.NumberText(s)
    ensures FlowPlain(s)
  {
    hide PlainCharAt;
    forall i | 0 <= i < |s| ensures PlainCharAt(s, i) { NumberCharAt(s, i); }
    NumberChar(s[|s| - 1]);
    NumberStart(s);
  }

  lemma NumberChar(c: char)
    requires c in "0123456789+-.eE"
    ensures !IsBreak(c) && c != NUL && c != '\t' && c !in ",?[]{}" && c != ':' && c != '#' && c != ' '
  {
  }

  lemma NumberCharAt(s: string, i: nat)
    requires i < |s| && s[i] in "0123456789+-.eE"
    ensures PlainCharAt(s, i)
  {
    NumberChar(s[i]);
  }

  lemma NumberStart(s: string)
    requires LayoutTokens.NumberText(s)
    ensures s[0] !in "&*!|>'\"%@`: " && (s[0] == '-' ==> |s| > 1 && s[1] != ' ' && s[1] != '-') && s[0] != '.'
  {
  }

  lemma WordIsFlowPlain(s: string)
    requires s != "" && forall i :: 0 <= i < |s| ==> 'a' <= s[i] <= 'z'
    ensures FlowPlain(s)
  {
    assert 'a' <= s[0] <= 'z' && 'a' <= s[|s| - 1] <= 'z';
    forall i | 0 <= i < |s| ensures PlainCharAt(s, i) {
      assert 'a' <= s[i] <= 'z';
    }
  }

  // ---------- the tree ----------

  /** Every key, in quotes, is short enough for a simple key. */
  predicate KeysShort(tree: Tree)
    decreases tree, 1
  {
    match tree
    case TList(items) => ItemKeysShort(items)
    case TObject(entries) => EntryKeysShort(entries)
    case _ => true
  }

  predicate ItemKeysShort(items: seq<Tree>)
    decreases items, 0
  {
    items == [] || (KeysShort(items[0]) && ItemKeysShort(items[1..]))
  }

  predicate KeyShort(key: string) {
    UnitsAreString(key);
    |UnitsText(JsonUnits(key), false)| + 2 <= 1024
  }

  predicate EntryKeysShort(entries: seq<Entry>)
    decreases entries, 0
  {
    entries == [] || (KeyShort(entries[0].key) && KeysShort(entries[0].value) && EntryKeysShort(entries[1..]))
  }

  lemma {:induction false} JsonOk(tree: Tree)
    requires ValidTree(tree) && KeysShort(tree)
    ensures TreeOk(JsonTree(tree))
    decreases tree, 1
  {
    match tree
    case TList(items) => JsonItemsOk(items);
    case TObject(entries) => JsonEntriesOk(entries);
    case TString(s) => UnitsAreString(s);
    case TNumber(text) => NumberIsFlowPlain(text);
    case TBool(b) => WordIsFlowPlain(if b then "true" else "false");
    case TNull => WordIsFlowPlain("null");
  }

  lemma {:induction false} JsonItemsOk(items: seq<Tree>)
    requires ValidItems(items) && ItemKeysShort(items)
    ensures ItemsOk(JsonItems(items))
    decreases items, 0
  {
    hide TreeOk, JsonTree, ValidTree, KeysShort;
    if items != [] {
      JsonOk(items[0]);
      JsonItemsOk(items[1..]);
      assert JsonItems(items)[1..] == JsonItems(items[1..]);
    }
  }

  lemma {:induction false} JsonEntriesOk(entries: seq<Entry>)
    requires ValidEntries(entries) && EntryKeysShort(entries)
    ensures EntriesOk(JsonEntries(entries))
    decreases entries, 0
  {
    hide TreeOk, JsonTree, ValidTree, KeysShort, UnitsOk, UnitsText, JsonUnits;
    if entries != [] {
      JsonOk(entries[0].value);
      UnitsAreString(entries[0].key);
      JsonEntriesOk(entries[1..]);
      assert JsonEntries(entries)[1..] == JsonEntries(entries[1..]);
    }
  }

  // ---------- its value ----------

  lemma NoAnchor(form: Form, ds: seq<TagDirective>)
    requires FormOk(form)
    ensures SynNode(FormSyntax("", form), ds)
         == ScalarNode("", "", FormToken(form).value, FormToken(form).style == Plain)
  {
  }

  lemma JsonLeafDenotes(tree: Tree, ds: seq<TagDirective>, lib: Library)
    requires !tree.TList? && !tree.TObject? && ValidTree(tree) && Accepted(tree, lib.numbers) && TreeOk(JsonTree(tree))
    ensures Denote(SynNode(SyntaxOf(JsonTree(tree)), ds), map[], lib) == Ok(Denoted(ValueOf(tree, lib.numbers), map[]))
  {
    hide ResolvePlain, FormOk, TagOf, SynNode, FormSyntax, NumberText, NumberAccepted, JsonString;
    match tree
    case TString(s) =>
      JsonKeyDenotes(s, ds, lib);
    case TNumber(text) =>
      NoAnchor(PlainForm(text), ds);
      NumberReadBack(text, lib.numbers);
    case TBool(b) =>
      NoAnchor(PlainForm(if b then "true" else "false"), ds);
      WordsReadBack(lib.numbers);
    case TNull =>
      NoAnchor(PlainForm("null"), ds);
      WordsReadBack(lib.numbers);
  }

  lemma {:induction false} JsonDenotes(tree: Tree, ds: seq<TagDirective>, lib: Library)
    requires ValidTree(tree) && Accepted(tree, lib.numbers) && TreeOk(JsonTree(tree))
    ensures Denote(SynNode(SyntaxOf(JsonTree(tree)), ds), map[], lib) == Ok(Denoted(ValueOf(tree, lib.numbers), map[]))
    decreases tree, 1
  {
    hide ResolvePlain, FormOk, TagOf, ItemParts, EntryParts, PartNodes, PartPairs, JsonItems, JsonEntries, ValuesOf,
      MembersOf;
    match tree
    case TList(items) =>
      JsonItemsDenote(items, ds, lib);
      NoTag(ds);
    case TObject(entries) =>
      JsonEntriesDenote(entries, ds, lib, map[]);
      NoTag(ds);
    case _ => JsonLeafDenotes(tree, ds, lib);
  }

  lemma NoTag(ds: seq<TagDirective>)
    ensures TagOf(NO_PROPS, ds) == "" && AnchorOf(NO_PROPS) == ""
  {
  }

  lemma {:induction false} JsonItemsDenote(items: seq<Tree>, ds: seq<TagDirective>, lib: Library)
    requires ValidItems(items) && ItemsAccepted(items, lib.numbers) && ItemsOk(JsonItems(items))
    ensures DenoteItems(PartNodes(ItemParts(JsonItems(items)), ds), map[], lib)
         == Ok((ValuesOf(items, lib.numbers), map[]))
    decreases items, 0
  {
    hide Denote, SynNode, SyntaxOf, JsonTree, ValueOf, TreeOk, ValidTree, Accepted;
    if items != [] {
      var js := JsonItems(items);
      assert js[0] == JsonTree(items[0]) && js[1..] == JsonItems(items[1..]);
      JsonDenotes(items[0], ds, lib);
      JsonItemsDenote(items[1..], ds, lib);
      var parts := ItemParts(js);
      assert parts[0] == Single(SyntaxOf(js[0])) && parts[1..] == ItemParts(js[1..]);
      var nodes := PartNodes(parts, ds);
      assert nodes[0] == PartNode(parts[0], ds) && nodes[1..] == PartNodes(parts[1..], ds);
      assert PartNode(parts[0], ds) == SynNode(SyntaxOf(js[0]), ds);
    }
  }

  lemma {:induction false} JsonEntriesDenote(entries: seq<Entry>, ds: seq<TagDirective>, lib: Library,
                                             before: map<string, Value>)
    requires ValidEntries(entries) && EntriesAccepted(entries, lib.numbers) && EntriesOk(JsonEntries(entries))
    ensures DenotePairs(PartPairs(EntryParts(JsonEntries(entries)), ds), map[], before, lib)
         == Ok(Denoted(VObject(MembersOf(entries, before, lib.numbers)), map[]))
    decreases entries, 0
  {
    hide Denote, SynNode, SyntaxOf, JsonTree, ValueOf, ValidTree, Accepted, FormSyntax, JsonString, TreeOk, FormOk,
      FormText;
    if entries != [] {
      var key, value := entries[0].key, entries[0].value;
      var js := JsonEntries(entries);
      assert js[0] == FlowEntry(JsonString(key), JsonTree(value)) && js[1..] == JsonEntries(entries[1..]);
      JsonDenotes(value, ds, lib);
      JsonKeyDenotes(key, ds, lib);
      JsonEntriesDenote(entries[1..], ds, lib, before[key := ValueOf(value, lib.numbers)]);
      var parts := EntryParts(js);
      assert parts[0] == EntryPart(js[0]) && parts[1..] == EntryParts(js[1..]);
      var pairs := PartPairs(parts, ds);
      assert pairs[0] == PartPair(parts[0], ds) && pairs[1..] == PartPairs(parts[1..], ds);
      assert pairs[0] == Pair(SynNode(FormSyntax("", JsonString(key)), ds), SynNode(SyntaxOf(JsonTree(value)), ds));
      assert DenotePair(pairs[0], map[], lib) == Ok((key, Denoted(ValueOf(value, lib.numbers), map[])));
    }
  }

  lemma {:induction false} JsonKeyDenotes(key: string, ds: seq<TagDirective>, lib: Library)
    requires FormOk(JsonString(key))
    ensures Denote(SynNode(FormSyntax("", JsonString(key)), ds), map[], lib) == Ok(Denoted(VString(key), map[]))
  {
    UnitsAreString(key);
    NoAnchor(JsonString(key), ds);
  }

  // ---------- the text ----------

  function JsonText(tree: Tree): string
    requires ValidTree(tree) && KeysShort(tree)
  {
    JsonOk(tree);
    TreeText(JsonTree(tree), " ")
  }

  lemma ReadableJoin(a: string, b: string)
    requires AllReadable(a) && AllReadable(b)
    ensures AllReadable(a + b)
  {
  }

  lemma UnitReadable(c: char)
    ensures UnitOk(JsonUnit(c), false) && AllReadable(UnitText(JsonUnit(c), false))
  {
    UnitIsChar(c);
    if !Unescaped(c) && (c as int) < 0x1_0000 {
      var ds := CodeDigits(c as int);
      forall i | 0 <= i < 4 ensures Readable(DigitsText(ds)[i] as int) {
        DigitRead(ds[i]);
      }
    }
  }

  lemma {:induction false} UnitsReadable(s: string)
    ensures UnitsOk(JsonUnits(s), false) && AllReadable(UnitsText(JsonUnits(s), false))
  {
    hide UnitOk, UnitText, JsonUnit, Readable;
    UnitsAreString(s);
    if s != "" {
      UnitReadable(s[0]);
      UnitsReadable(s[1..]);
      assert JsonUnits(s)[1..] == JsonUnits(s[1..]);
      ReadableJoin(UnitText(JsonUnit(s[0]), false), UnitsText(JsonUnits(s[1..]), false));
    }
  }

  lemma StringReadable(s: string)
    ensures FormOk(JsonString(s)) && AllReadable(FormText(JsonString(s)))
  {
    hide UnitsText, Readable;
    UnitsReadable(s);
    assert AllReadable("\"") by { Plainly("\""); }
    ReadableJoin("\"", UnitsText(JsonUnits(s), false));
    ReadableJoin("\"" + UnitsText(JsonUnits(s), false), "\"");
  }

  lemma Plainly(s: string)
    requires forall i :: 0 <= i < |s| ==> ' ' <= s[i] <= '~'
    ensures AllReadable(s)
  {
  }

  lemma {:induction false} TextReadable(tree: Tree)
    requires ValidTree(tree) && TreeOk(JsonTree(tree))
    ensures AllReadable(TreeText(JsonTree(tree), " "))
    decreases tree, 1
  {
    hide Readable, FormOk, FormText, AllReadable;
    match tree
    case TList(items) =>
      JsonItemsReadable(items);
      var text := ItemsText(JsonItems(items), " ");
      Plainly("[");
      Plainly("]");
      ReadableJoin("[", text);
      ReadableJoin("[" + text, "]");
      assert "" + ("[" + text + "]") == "[" + text + "]";
    case TObject(entries) =>
      JsonEntriesReadable(entries);
      var text := EntriesText(JsonEntries(entries), " ");
      Plainly("{");
      Plainly("}");
      ReadableJoin("{", text);
      ReadableJoin("{" + text, "}");
      assert "" + ("{" + text + "}") == "{" + text + "}";
    case TString(s) =>
      StringReadable(s);
      assert "" + FormText(JsonString(s)) == FormText(JsonString(s));
    case TNumber(text) =>
      NumberPlainly(text);
      assert "" + FormText(PlainForm(text)) == text by { PlainText(text); }
    case TBool(b) =>
      var text := if b then "true" else "false";
      Plainly(text);
      assert "" + FormText(PlainForm(text)) == text by { PlainText(text); }
    case TNull =>
      Plainly("null");
      assert "" + FormText(PlainForm("null")) == "null" by { PlainText("null"); }
  }

  lemma PlainText(v: string)
    ensures FormOk(PlainForm(v)) ==> "" + FormText(PlainForm(v)) == v
  {
  }

  lemma NumberPlainly(s: string)
    requires LayoutTokens.NumberText(s)
    ensures AllReadable(s)
  {
    forall i | 0 <= i < |s| ensures ' ' <= s[i] <= '~' { assert s[i] in "0123456789+-.eE"; }
    Plainly(s);
  }

  lemma {:induction false} JsonItemsReadable(items: seq<Tree>)
    requires ValidItems(items) && ItemsOk(JsonItems(items))
    ensures AllReadable(ItemsText(JsonItems(items), " "))
    decreases items, 0
  {
    hide Readable, TreeOk, TreeText, JsonTree, AllReadable, ValidTree;
    if items == [] {
      Plainly("");
    } else {
      var js := JsonItems(items);
      assert js[0] == JsonTree(items[0]) && js[1..] == JsonItems(items[1..]);
      TextReadable(items[0]);
      JsonItemsReadable(items[1..]);
      var comma := if |js| == 1 then "" else "," + " ";
      Plainly(comma);
      ReadableJoin(TreeText(js[0], " "), comma);
      ReadableJoin(TreeText(js[0], " ") + comma, ItemsText(js[1..], " "));
    }
  }

  lemma {:induction false} JsonEntriesReadable(entries: seq<Entry>)
    requires ValidEntries(entries) && EntriesOk(JsonEntries(entries))
    ensures AllReadable(EntriesText(JsonEntries(entries), " "))
    decreases entries, 0
  {
    hide Readable, TreeOk, TreeText, JsonTree, AllReadable, ValidTree, FormText, FormOk, JsonString;
    if entries == [] {
      Plainly("");
    } else {
      var js := JsonEntries(entries);
      assert js[0] == FlowEntry(JsonString(entries[0].key), JsonTree(entries[0].value));
      assert js[1..] == JsonEntries(entries[1..]);
      StringReadable(entries[0].key);
      TextReadable(entries[0].value);
      JsonEntriesReadable(entries[1..]);
      var key, value := FormText(js[0].key), TreeText(js[0].value, " ");
      var comma := if |js| == 1 then "" else "," + " ";
      Plainly(comma);
      Plainly(": ");
      ReadableJoin(key, ": ");
      ReadableJoin(key + ": ", value);
      ReadableJoin(key + ": " + value, comma);
      ReadableJoin(key + ": " + value + comma, EntriesText(js[1..], " "));
    }
  }

  // ---------- read ----------

  /**
   JSON is read as what it is: every list or object, with keys of at most 1022 characters as they are
   written and numbers that the library reads, comes back as its own value from its JSON text.
   */
  lemma JsonIsRead(tree: Tree, lib: Library)
    requires ValidTree(tree) && (tree.TList? || tree.TObject?) && Accepted(tree, lib.numbers) && KeysShort(tree)
    requires Height(JsonTree(tree)) <= Scanner.MAX_FLOW_LEVEL
    ensures ReadBack(EncodeAll(JsonText(tree) + "\n"), lib) == Ok(ValueOf(tree, lib.numbers))
  {
    hide EncodeAll, ReadBack, Denote, SynNode, SyntaxOf, TreeText, ValueOf, TreeOk, WithDefaults, AllReadable,
      Readable, ValidTree, Accepted, KeysShort;
    JsonOk(tree);
    TextReadable(tree);
    assert AllReadable("\n") by { NewLineReadable(); }
    ReadableJoin(JsonText(tree), "\n");
    assert Gap(" ") && TailOk("\n");
    assert JsonTree(tree).Sequence? || JsonTree(tree).Mapping?;
    JsonDenotes(tree, WithDefaults([]), lib);
    FlowTreeRead(JsonTree(tree), " ", "\n", lib);
  }

  lemma NewLineReadable()
    ensures AllReadable("\n")
  {
  }
}
