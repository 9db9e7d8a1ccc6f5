/** Printed text holds only characters that the reader lets through, and no byte order mark. */
module PrintedText {
  import opened Chars
  import opened Pens
  import opened Analysis
  import opened ScalarWriters
  import opened Resolve
  import opened Tokens
  import opened Layout
  import opened LayoutTokens
  import Decoding

  predicate CleanChar(c: char) {
    Decoding.Readable(c as int) && c != BOM
  }

  predicate Clean(s: string) {
    forall i :: 0 <= i < |s| ==> CleanChar(s[i])
  }

  lemma CleanConcat(a: string, b: string)
    requires Clean(a) && Clean(b)
    ensures Clean(a + b)
  {
  }

  lemma IndentClean(p: Pen, indent: int)
    requires Clean(p.out)
    ensures Clean(WriteIndent(p, indent).out)
  {
  }

  lemma IndicatorClean(p: Pen, s: string, a: bool, b: bool, c: bool)
    requires Clean(p.out) && Clean(s)
    ensures Clean(WriteIndicator(p, s, a, b, c).out)
  {
  }

  lemma PrintableIsClean(c: char)
    requires IsPrintable(c)
    ensures CleanChar(c)
  {
  }

  lemma {:induction false} HexClean(x: nat, n: nat)
    ensures Clean(HexDigits(x, n))
  {
    if n > 0 { HexClean(x / 16, n - 1); }
  }

  lemma EscapeClean(c: char)
    ensures Clean(EscapeText(c))
  {
    LookupFinds(NAMED, c, 0);
    HexClean(c as int, 2);
    HexClean(c as int, 4);
    HexClean(c as int, 8);
    NamesAreClean();
    var name := Lookup(NAMED, c, 0);
    assert Clean("\\");
    CleanConcat("\\", if name != "" then name else HexEscape(c as int));
  }

  lemma NamesAreClean()
    ensures forall j :: 0 <= j < |NAMED| ==> CleanChar(NAMED[j].1)
  {
  }

  lemma {:induction false} DoubleClean(p: Pen, v: string, i: nat, spaces: bool, allow: bool, indent: int, cfg: Config)
    requires i <= |v| && Clean(p.out)
    ensures Clean(DoubleBody(p, v, i, spaces, allow, indent, cfg).out)
    decreases |v| - i
  {
    if i < |v| {
      var q := DoubleStep(p, v, i, spaces, allow, indent, cfg);
      assert Clean(q.out) by {
        hide EscapeText, WriteIndent;
        EscapeClean(v[i]);
        IndentClean(p, indent);
        if !NeedsEscape(v, i, cfg) { PrintableIsClean(v[i]); }
      }
      DoubleClean(q, v, i + 1, PlainSpace(v, i, cfg), allow, indent, cfg);
    }
  }

  lemma StepClean(p: Pen, c: char, folds: bool, breaks: bool, quote: bool, indent: int)
    requires Clean(p.out) && IsPrintable(c)
    ensures Clean(LineStep(p, c, folds, breaks, quote, indent).out)
  {
    hide WriteIndent;
    PrintableIsClean(c);
    IndentClean(p, indent);
  }

  lemma FitsIsPrintable(v: string, i: nat, cfg: Config)
    requires SingleQuotedAllowed(v, cfg) && i < |v|
    ensures IsPrintable(v[i])
  {
    assert SingleFits(v, i, cfg);
  }

  lemma {:induction false} SingleClean(p: Pen, v: string, i: nat, spaces: bool, breaks: bool,
                                       allow: bool, indent: int, cfg: Config)
    requires i <= |v| && Clean(p.out) && SingleQuotedAllowed(v, cfg)
    ensures Clean(SingleBody(p, v, i, spaces, breaks, allow, indent, cfg).out)
    decreases |v| - i
  {
    if i < |v| {
      hide LineStep, SingleQuotedAllowed;
      var folds := FoldsSingle(p, v, i, allow, spaces, cfg);
      FitsIsPrintable(v, i, cfg);
      StepClean(p, v[i], folds, breaks, true, indent);
      SingleClean(LineStep(p, v[i], folds, breaks, true, indent), v, i + 1,
                  SpacesAfter(v[i], spaces), BreaksAfter(v[i], breaks), allow, indent, cfg);
    }
  }

  lemma {:induction false} PlainClean(p: Pen, v: string, i: nat, spaces: bool, breaks: bool,
                                      allow: bool, indent: int, cfg: Config)
    requires i <= |v| && Clean(p.out) && SingleQuotedAllowed(v, cfg)
    ensures Clean(PlainBody(p, v, i, spaces, breaks, allow, indent, cfg).out)
    decreases |v| - i
  {
    if i < |v| {
      hide LineStep, SingleQuotedAllowed;
      var folds := FoldsPlain(p, v, i, allow, spaces, cfg);
      FitsIsPrintable(v, i, cfg);
      StepClean(p, v[i], folds, breaks, false, indent);
      PlainClean(LineStep(p, v[i], folds, breaks, false, indent), v, i + 1,
                 SpacesAfter(v[i], spaces), BreaksAfter(v[i], breaks), allow, indent, cfg);
    }
  }

  lemma ScalarClean(p: Pen, v: string, style: Style, root: bool, allow: bool, indent: int, cfg: Config)
    requires Clean(p.out) && (style != DoubleQuoted ==> SingleQuotedAllowed(v, cfg))
    ensures Clean(WriteScalar(p, v, style, root, allow, indent, cfg).out)
  {
    hide PlainBody, SingleBody, DoubleBody, SingleQuotedAllowed;
    match style
    case Plain =>
      PlainClean(if v != "" && !p.whitespace then Put(p, ' ') else p, v, 0, false, false, allow, indent, cfg);
    case SingleQuoted =>
      IndicatorClean(p, "'", true, false, false);
      var q := WriteIndicator(p, "'", true, false, false);
      SingleClean(q, v, 0, false, false, allow, indent, cfg);
      IndicatorClean(SingleBody(q, v, 0, false, false, allow, indent, cfg), "'", false, false, false);
    case DoubleQuoted =>
      IndicatorClean(p, "\"", true, false, false);
      var q := WriteIndicator(p, "\"", true, false, false);
      DoubleClean(q, v, 0, false, allow, indent, cfg);
      IndicatorClean(DoubleBody(q, v, 0, false, allow, indent, cfg), "\"", false, false, false);
  }

  lemma EmitScalarClean(p: Pen, v: string, requested: Style, place: Place, simpleKey: bool, indent: int, cfg: Config)
    requires Clean(p.out) && ValidConfig(cfg)
    ensures Clean(EmitScalar(p, v, requested, place, simpleKey, indent, cfg).out)
  {
    hide SingleQuotedAllowed, WriteScalar;
    ScalarClean(p, v, SelectStyle(requested, v, simpleKey, false, cfg), place == Root, !simpleKey,
                IncreaseIndent(indent, true, place == InList, cfg), cfg);
  }

  lemma KeyClean(p: Pen, key: string, indent: int, env: Env)
    requires Clean(p.out) && ValidEnv(env)
    ensures Clean(EmitKey(p, key, indent, env).out)
  {
    hide EmitScalar, WriteIndent, WriteIndicator, SimpleKeyAllowed;
    var style := (env.styleOf)(key);
    var q := WriteIndent(p, indent);
    IndentClean(p, indent);
    if SimpleKeyAllowed(key) {
      EmitScalarClean(q, key, style, InObject, true, indent, env.cfg);
      IndicatorClean(EmitScalar(q, key, style, InObject, true, indent, env.cfg), ":", false, false, false);
    } else {
      IndicatorClean(q, "?", true, false, true);
      var u := WriteIndicator(q, "?", true, false, true);
      EmitScalarClean(u, key, style, InObject, false, indent, env.cfg);
      var r := EmitScalar(u, key, style, InObject, false, indent, env.cfg);
      IndentClean(r, indent);
      IndicatorClean(WriteIndent(r, indent), ":", true, false, true);
    }
  }

  lemma {:induction false} TreeClean(p: Pen, tree: Tree, place: Place, indent: int, env: Env)
    requires Clean(p.out) && ValidEnv(env)
    ensures Clean(EmitTree(p, tree, place, indent, env).out)
    decreases tree, 1
  {
    hide EmitScalar, WriteIndicator;
    var inner := IncreaseIndent(indent, false, place == InList, env.cfg);
    match tree
    case TList(items) =>
      IndicatorClean(p, "[", true, true, false);
      IndicatorClean(WriteIndicator(p, "[", true, true, false), "]", false, false, false);
      if items != [] { ItemsClean(p, items, inner, env); }
    case TObject(entries) =>
      IndicatorClean(p, "{", true, true, false);
      IndicatorClean(WriteIndicator(p, "{", true, true, false), "}", false, false, false);
      if entries != [] { EntriesClean(p, entries, inner, env); }
    case _ =>
      EmitScalarClean(p, LeafText(tree), LeafStyle(tree, env), place, false, indent, env.cfg);
  }

  lemma {:induction false} ItemsClean(p: Pen, items: seq<Tree>, indent: int, env: Env)
    requires Clean(p.out) && ValidEnv(env)
    ensures Clean(EmitItems(p, items, indent, env).out)
    decreases items, 0
  {
    if items != [] {
      hide EmitTree, WriteIndent, WriteIndicator;
      IndentClean(p, indent);
      IndicatorClean(WriteIndent(p, indent), "-", true, false, true);
      TreeClean(DashPen(p, indent), items[0], InList, indent, env);
      ItemsClean(EmitTree(DashPen(p, indent), items[0], InList, indent, env), items[1..], indent, env);
    }
  }

  lemma {:induction false} EntriesClean(p: Pen, entries: seq<Entry>, indent: int, env: Env)
    requires Clean(p.out) && ValidEnv(env)
    ensures Clean(EmitEntries(p, entries, indent, env).out)
    decreases entries, 0
  {
    if entries != [] {
      hide EmitTree, EmitKey;
      KeyClean(p, entries[0].key, indent, env);
      var q := EmitKey(p, entries[0].key, indent, env);
      TreeClean(q, entries[0].value, InObject, indent, env);
      EntriesClean(EmitTree(q, entries[0].value, InObject, indent, env), entries[1..], indent, env);
    }
  }

  /** Every printed document passes the reader unchanged. */
  lemma DocumentClean(tree: Tree, env: Env)
    requires ValidEnv(env)
    ensures Clean(EmitDocument(tree, env).out)
    ensures Decoding.AllReadable(EmitDocument(tree, env).out)
  {
    hide EmitTree, WriteIndent, WriteIndicator;
    var q := EmitTree(StartPen, tree, Root, -1, env);
    TreeClean(StartPen, tree, Root, -1, env);
    IndentClean(q, -1);
    var p := WriteIndent(q, -1);
    IndicatorClean(p, "...", true, false, false);
    IndentClean(WriteIndicator(p, "...", true, false, false), -1);
    AllClean(EmitDocument(tree, env).out);
  }

  lemma AllClean(s: string)
    requires Clean(s)
    ensures Decoding.AllReadable(s)
  {
    forall i | 0 <= i < |s| ensures Decoding.Readable(s[i] as int) {
      assert CleanChar(s[i]);
    }
  }
}
