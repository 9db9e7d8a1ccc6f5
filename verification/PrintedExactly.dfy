/** The emitter writes exactly the printed form, whose indentation is that of the nesting. */
module PrintedExactly {
  import opened Chars
  import opened Pens
  import opened Analysis
  import opened ScalarWriters
  import opened Resolve
  import opened Tokens
  import opened Layout
  import opened LayoutTokens
  import opened PrintedForm
  import opened PrintedWords

  function LeadPen(t: string, lead: Lead): Pen {
    PenAt(t, lead == AtStart, lead != NextLine)
  }

  /** Places that go together: the root alone stands at the start. */
  predicate Fits(t: string, place: Place, lead: Lead, outer: int) {
    && (if place == Root then lead == AtStart && outer == -1 && t == "" else lead != AtStart && outer >= 0)
    && (place == InList ==> lead == SameLine)
  }

  lemma InnerIs(outer: int, place: Place, cfg: Config)
    requires ValidConfig(cfg) && (if place == Root then outer == -1 else outer >= 0)
    ensures IncreaseIndent(outer, false, place == InList, cfg) == Inner(outer, place, cfg.bestIndent) >= 0
    ensures IncreaseIndent(outer, true, place == InList, cfg) == ScalarMargin(outer, place, cfg.bestIndent) >= 0
  {
    var b := cfg.bestIndent;
    if place == InObject {
      OneMore(outer, b);
      assert outer + b == b * ((outer + b) / b) + (outer + b) % b;
    }
  }

  // ---------- scalars ----------

  lemma StyleAsked(v: string, requested: Style, key: bool, cfg: Config)
    requires v == "" && requested != Plain
    ensures SelectStyle(requested, v, key, false, cfg) == requested
  {
  }

  lemma EmptyWritten(p: Pen, style: Style, root: bool, allow: bool, indent: int, cfg: Config)
    requires style != Plain
    ensures WriteScalar(p, "", style, root, allow, indent, cfg).out
         == p.out + (if p.whitespace then "" else " ") + Quote(style) + Quote(style)
  {
  }

  lemma ScalarPrinted(t: string, v: string, requested: Style, place: Place, key: bool, lead: Lead,
                      outer: int, cfg: Config)
    requires ValidConfig(cfg) && (requested == Plain ==> v != "")
    requires if place == Root then outer == -1 else outer >= 0
    ensures var q := EmitScalar(LeadPen(t, lead), v, requested, place, key, outer, cfg);
      && q.out == ScalarForm(t, v, requested, place, key, lead, outer, cfg)
      && Tracks(q) && !q.whitespace && !q.indention
      && (q.openEnded <==> place == Root && SelectStyle(requested, v, key, false, cfg) == Plain)
  {
    hide WriteScalar, Filled, Joined, Split, Column, LinesBefore, SelectStyle, AreWords, StyleOfWords;
    var p := LeadPen(t, lead);
    var style := SelectStyle(requested, v, key, false, cfg);
    InnerIs(outer, place, cfg);
    assert t + "" == t;
    EmitScalarNode(p, v, requested, place, key, outer, cfg);
    ScalarTracks(p, v, style, place == Root, !key, ScalarMargin(outer, place, cfg.bestIndent), cfg);
    if v == "" {
      StyleAsked(v, requested, key, cfg);
      EmptyWritten(p, style, place == Root, !key, ScalarMargin(outer, place, cfg.bestIndent), cfg);
    } else if Wordy(v, cfg) {
      SplitJoined(v);
      StyleOfWordy(v, Split(v), requested, key, cfg);
      WordyWritten(p, v, Split(v), style, place == Root, !key, ScalarMargin(outer, place, cfg.bestIndent), cfg);
    }
  }

  lemma KeyFitsAs(key: string)
    ensures KeyFits(key) <==> SimpleKeyAllowed(key)
  {
  }

  // ---------- trees ----------

  lemma BegunAt(t: string, n: nat, lead: Lead)
    requires lead == AtStart ==> t == "" && n == 0
    ensures WriteIndent(LeadPen(t, lead), n) == PenAt(Begun(t, n, lead), true, true)
    ensures lead != AtStart ==> Column(Begun(t, n, lead)) == n
  {
    hide Column, LinesBefore;
    LineBegun(t, n);
    if Column(t) < n { ColumnMore(t, Spaces(n - Column(t))); }
    assert t + "\n" + Spaces(n) == t + NewLine(n);
    assert Column("") == 0 by { NoColumn(); }
    assert t + Spaces(0) == t;
  }

  lemma NoColumn()
    ensures Column("") == 0 && LinesBefore("") == 0
  {
  }

  lemma EmptyPrinted(t: string, lead: Lead, open: string, close: string)
    requires |open| == 1 && |close| == 1 && !IsBreak(open[0]) && !IsBreak(close[0])
    ensures EmitEmpty(LeadPen(t, lead), open, close)
         == PenAt(t + (if lead == AtStart then "" else " ") + (open + close), false, false)
  {
    hide Column, LinesBefore;
    var gap := if lead == AtStart then "" else " ";
    ColumnMore(t, gap);
    ColumnMore(t + gap, open);
    ColumnMore(t + gap + open, close);
    assert t + gap + open + close == t + gap + (open + close);
  }

  lemma DashPrinted(t: string, n: nat, lead: Lead)
    requires lead == AtStart ==> t == "" && n == 0
    ensures DashPen(LeadPen(t, lead), n) == LeadPen(Begun(t, n, lead) + "-", SameLine)
  {
    hide Column, LinesBefore;
    BegunAt(t, n, lead);
    ColumnMore(Begun(t, n, lead), "-");
  }

  lemma {:induction false} TreePrinted(t: string, tree: Tree, place: Place, lead: Lead, outer: int, env: Env)
    requires ValidEnv(env) && ValidTree(tree) && Fits(t, place, lead, outer)
    ensures var q := EmitTree(LeadPen(t, lead), tree, place, outer, env);
      && q.(openEnded := false) == PenAt(TreeForm(t, tree, place, lead, outer, env), false, false)
      && (q.openEnded <==> place == Root && RootPlain(tree, env))
    decreases tree, 1
  {
    hide EmitScalar, ScalarForm, EmitEmpty, Column, LinesBefore, SelectStyle;
    var n := Inner(outer, place, env.cfg.bestIndent);
    InnerIs(outer, place, env.cfg);
    assert "[" + "]" == "[]" && "{" + "}" == "{}";
    match tree
    case TList(items) =>
      if items == [] { EmptyPrinted(t, lead, "[", "]"); } else { ItemsPrinted(t, items, lead, n, env); }
    case TObject(entries) =>
      if entries == [] { EmptyPrinted(t, lead, "{", "}"); } else { EntriesPrinted(t, entries, lead, n, env); }
    case _ => ScalarPrinted(t, LeafText(tree), LeafStyle(tree, env), place, false, lead, outer, env.cfg);
  }

  lemma {:induction false} ItemsPrinted(t: string, items: seq<Tree>, lead: Lead, n: nat, env: Env)
    requires ValidEnv(env) && ValidItems(items) && (lead == AtStart ==> t == "" && n == 0)
    ensures EmitItems(LeadPen(t, lead), items, n, env)
         == if items == [] then LeadPen(t, lead) else PenAt(ItemsForm(t, items, lead, n, env), false, false)
    decreases items, 0
  {
    hide EmitTree, TreeForm, DashPen, Begun, Column, LinesBefore;
    if items != [] {
      var dash := Begun(t, n, lead) + "-";
      DashPrinted(t, n, lead);
      TreePrinted(dash, items[0], InList, SameLine, n, env);
      ItemsPrinted(TreeForm(dash, items[0], InList, SameLine, n, env), items[1..], NextLine, n, env);
    }
  }

  lemma KeyPrinted(t: string, key: string, lead: Lead, n: nat, env: Env)
    requires ValidEnv(env) && (lead == AtStart ==> t == "" && n == 0)
    ensures EmitKey(LeadPen(t, lead), key, n, env)
         == LeadPen(KeyForm(t, key, lead, n, env), if KeyFits(key) then NextLine else SameLine)
  {
    hide EmitScalar, ScalarForm, Begun, Column, LinesBefore, KeyFits, SimpleKeyAllowed, WriteIndent, SelectStyle;
    var u, style := Begun(t, n, lead), env.styleOf(key);
    KeyFitsAs(key);
    BegunAt(t, n, lead);
    if KeyFits(key) {
      ScalarPrinted(u, key, style, InObject, true, AtStart, n, env.cfg);
      ColumnMore(ScalarForm(u, key, style, InObject, true, AtStart, n, env.cfg), ":");
    } else {
      ColumnMore(u, "?");
      ScalarPrinted(u + "?", key, style, InObject, false, SameLine, n, env.cfg);
      var w := ScalarForm(u + "?", key, style, InObject, false, SameLine, n, env.cfg);
      var q := EmitScalar(LeadPen(u + "?", SameLine), key, style, InObject, false, n, env.cfg);
      assert q == LeadPen(w, NextLine);
      BegunAt(w, n, NextLine);
      assert Begun(w, n, NextLine) == w + NewLine(n) by { BegunNext(w, n); }
      ColumnMore(w + NewLine(n), ":");
    }
  }

  lemma BegunNext(t: string, n: nat)
    ensures Begun(t, n, NextLine) == t + NewLine(n)
  {
  }

  lemma {:induction false} EntriesPrinted(t: string, entries: seq<Entry>, lead: Lead, n: nat, env: Env)
    requires ValidEnv(env) && ValidEntries(entries) && (lead == AtStart ==> t == "" && n == 0)
    ensures EmitEntries(LeadPen(t, lead), entries, n, env)
         == if entries == [] then LeadPen(t, lead) else PenAt(EntriesForm(t, entries, lead, n, env), false, false)
    decreases entries, 0
  {
    hide EmitTree, TreeForm, EmitKey, KeyForm, KeyFits, Column, LinesBefore;
    if entries != [] {
      var key, value := entries[0].key, entries[0].value;
      var colon := KeyForm(t, key, lead, n, env);
      var next := if KeyFits(key) then NextLine else SameLine;
      KeyPrinted(t, key, lead, n, env);
      TreePrinted(colon, value, InObject, next, n, env);
      EntriesPrinted(TreeForm(colon, value, InObject, next, n, env), entries[1..], NextLine, n, env);
    }
  }

  /** Every document is printed in its printed form, character by character. */
  lemma DocumentPrinted(tree: Tree, env: Env)
    requires ValidEnv(env) && ValidTree(tree)
    ensures EmitDocument(tree, env).out == DocumentForm(tree, env)
  {
    hide EmitTree, TreeForm, RootPlain;
    assert StartPen == LeadPen("", AtStart) by { NoColumn(); }
    TreePrinted("", tree, Root, AtStart, -1, env);
    var t := TreeForm("", tree, Root, AtStart, -1, env);
    var p := WriteIndent(EmitTree(StartPen, tree, Root, -1, env), -1);
    assert p.out == t + "\n";
  }
}
