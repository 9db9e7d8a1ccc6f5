/** Where the items and entries of a printed document stand: in the column of their nesting. */
module PrintedPlaces {
  import opened Chars
  import opened Pens
  import opened ScalarWriters
  import opened Resolve
  import opened Tokens
  import opened Layout
  import opened LayoutTokens
  import opened PrintedForm
  import opened PrintedExactly

  // ---------- the form grows ----------

  lemma {:induction false} FilledGrows(t: string, words: seq<string>, style: Style, folds: bool, indent: nat,
                                       width: int)
    requires words != []
    ensures t <= Filled(t, words, style, folds, indent, width)
    decreases |words|
  {
    hide Column, Spelled;
    if |words| > 1 {
      var t1 := t + Spelled(words[0], style);
      FilledGrows(t1 + (if folds && Column(t1) > width then NewLine(indent) else " "), words[1..], style, folds,
                  indent, width);
    }
  }

  lemma ScalarGrows(t: string, v: string, requested: Style, place: Place, key: bool, lead: Lead, outer: int,
                    cfg: Config)
    requires ValidConfig(cfg) && (requested == Plain ==> v != "")
    ensures t <= ScalarForm(t, v, requested, place, key, lead, outer, cfg)
  {
    hide EmitScalar, Filled, Split, AreWords, StyleOfWords, Column, LinesBefore;
    EmitScalarNode(LeadPen(t, lead), v, requested, place, key, outer, cfg);
    if Wordy(v, cfg) {
      var style := StyleOfWords(Split(v), requested);
      var margin := ScalarMargin(outer, place, cfg.bestIndent);
      if margin >= 0 {
        FilledGrows((if lead == AtStart then t else t + " ") + Quote(style), Split(v), style, !key, margin,
                    cfg.bestWidth);
      }
    }
  }

  lemma BegunGrows(t: string, n: nat, lead: Lead)
    ensures t <= Begun(t, n, lead)
  {
  }

  /** What is written of an entry before anything that may break a line. */
  function KeyStart(u: string, key: string, n: int, env: Env): string
    requires ValidEnv(env)
  {
    if KeyFits(key) then ScalarForm(u, key, env.styleOf(key), InObject, true, AtStart, n, env.cfg) + ":" else u + "?"
  }

  lemma KeyGrows(t: string, key: string, lead: Lead, n: nat, env: Env)
    requires ValidEnv(env)
    ensures t <= Begun(t, n, lead) <= KeyStart(Begun(t, n, lead), key, n, env) <= KeyForm(t, key, lead, n, env)
  {
    hide ScalarForm, Begun, KeyFits;
    var u, style := Begun(t, n, lead), env.styleOf(key);
    BegunGrows(t, n, lead);
    ScalarGrows(u, key, style, InObject, true, AtStart, n, env.cfg);
    ScalarGrows(u + "?", key, style, InObject, false, SameLine, n, env.cfg);
  }

  lemma {:induction false} TreeGrows(t: string, tree: Tree, place: Place, lead: Lead, outer: int, env: Env)
    requires ValidEnv(env) && ValidTree(tree) && Fits(t, place, lead, outer)
    ensures t <= TreeForm(t, tree, place, lead, outer, env)
    decreases tree, 1
  {
    hide ScalarForm;
    var n := Inner(outer, place, env.cfg.bestIndent);
    InnerIs(outer, place, env.cfg);
    match tree
    case TList(items) => ItemsGrow(t, items, lead, n, env);
    case TObject(entries) => EntriesGrow(t, entries, lead, n, env);
    case _ => ScalarGrows(t, LeafText(tree), LeafStyle(tree, env), place, false, lead, outer, env.cfg);
  }

  lemma {:induction false} ItemsGrow(t: string, items: seq<Tree>, lead: Lead, n: nat, env: Env)
    requires ValidEnv(env) && ValidItems(items)
    ensures t <= ItemsForm(t, items, lead, n, env)
    decreases items, 0
  {
    hide TreeForm, Begun;
    if items != [] {
      var dash := Begun(t, n, lead) + "-";
      BegunGrows(t, n, lead);
      TreeGrows(dash, items[0], InList, SameLine, n, env);
      ItemsGrow(TreeForm(dash, items[0], InList, SameLine, n, env), items[1..], NextLine, n, env);
    }
  }

  lemma {:induction false} EntriesGrow(t: string, entries: seq<Entry>, lead: Lead, n: nat, env: Env)
    requires ValidEnv(env) && ValidEntries(entries)
    ensures t <= EntriesForm(t, entries, lead, n, env)
    decreases entries, 0
  {
    hide TreeForm, Begun, KeyForm, KeyStart, KeyFits;
    if entries != [] {
      var key, value := entries[0].key, entries[0].value;
      var colon := KeyForm(t, key, lead, n, env);
      var next := if KeyFits(key) then NextLine else SameLine;
      KeyGrows(t, key, lead, n, env);
      TreeGrows(colon, value, InObject, next, n, env);
      EntriesGrow(TreeForm(colon, value, InObject, next, n, env), entries[1..], NextLine, n, env);
    }
  }

  // ---------- paths ----------

  /** The path leads, by the numbers of children, to a child of a collection. */
  predicate Leads(tree: Tree, path: seq<nat>)
    decreases |path|
  {
    && path != []
    && (match tree
        case TList(items) => path[0] < |items| && (|path| == 1 || Leads(items[path[0]], path[1..]))
        case TObject(entries) => path[0] < |entries| && (|path| == 1 || Leads(entries[path[0]].value, path[1..]))
        case _ => false)
  }

  /** The column of the collection that the last number of the path counts in. */
  function ColumnOf(tree: Tree, path: seq<nat>, outer: int, place: Place, step: nat): int
    requires Leads(tree, path) && step > 0
    decreases |path|
  {
    var n := Inner(outer, place, step);
    if |path| == 1 then n
    else
      match tree
      case TList(items) => ColumnOf(items[path[0]], path[1..], n, InList, step)
      case TObject(entries) => ColumnOf(entries[path[0]].value, path[1..], n, InObject, step)
  }

  predicate AllMappings(tree: Tree, path: seq<nat>)
    requires Leads(tree, path)
    decreases |path|
  {
    tree.TObject? && (|path| == 1 || AllMappings(tree.entries[path[0]].value, path[1..]))
  }

  predicate AllLists(tree: Tree, path: seq<nat>)
    requires Leads(tree, path)
    decreases |path|
  {
    tree.TList? && (|path| == 1 || AllLists(tree.items[path[0]], path[1..]))
  }

  lemma {:induction false} MappingsIn(tree: Tree, path: seq<nat>, outer: int, depth: nat, step: nat)
    requires Leads(tree, path) && AllMappings(tree, path) && step > 0 && outer == depth * step
    ensures ColumnOf(tree, path, outer, InObject, step) == (depth + |path|) * step
    decreases |path|
  {
    MultipleOf(step, depth);
    if |path| > 1 { MappingsIn(tree.entries[path[0]].value, path[1..], outer + step, depth + 1, step); }
  }

  lemma {:induction false} ListsIn(tree: Tree, path: seq<nat>, outer: int, step: nat)
    requires Leads(tree, path) && AllLists(tree, path) && step > 0
    ensures ColumnOf(tree, path, outer, InList, step) == outer + 2 * |path|
    decreases |path|
  {
    if |path| > 1 { ListsIn(tree.items[path[0]], path[1..], outer + 2, step); }
  }

  /** Mappings in mappings step by the chosen indentation, lists in lists by two columns. */
  lemma NestedColumns(tree: Tree, path: seq<nat>, step: nat)
    requires Leads(tree, path) && step > 0
    ensures AllMappings(tree, path) ==> ColumnOf(tree, path, -1, Root, step) == (|path| - 1) * step
    ensures AllLists(tree, path) ==> ColumnOf(tree, path, -1, Root, step) == 2 * (|path| - 1)
  {
    if |path| > 1 {
      if AllMappings(tree, path) { MappingsIn(tree.entries[path[0]].value, path[1..], 0, 0, step); }
      if AllLists(tree, path) { ListsIn(tree.items[path[0]], path[1..], 0, step); }
    }
  }

  // ---------- where they stand ----------

  /** The child begins behind u: an item with its dash, an entry with its key. */
  ghost predicate BeginsBehind(u: string, text: string, tree: Tree, path: seq<nat>, n: int, env: Env)
    requires ValidEnv(env) && Leads(tree, path)
    decreases |path|
  {
    if |path| == 1 then (if tree.TList? then u + "-" else KeyStart(u, tree.entries[path[0]].key, n, env)) <= text
    else BeginsBehind(u, text, if tree.TList? then tree.items[path[0]] else tree.entries[path[0]].value, path[1..],
                      n, env)
  }

  /** No other child in front of it, and it may begin on the line of what it is in. */
  ghost predicate OnLineOf(tree: Tree, path: seq<nat>, lead: Lead)
    requires Leads(tree, path)
    decreases |path|
  {
    if |path| == 1 then path[0] == 0 && lead != NextLine
    else
      match tree
      case TList(items) => OnLineOf(items[path[0]], path[1..], SameLine)
      case TObject(entries) =>
        OnLineOf(entries[path[0]].value, path[1..], if KeyFits(entries[path[0]].key) then NextLine else SameLine)
  }

  /** In column n; and at the beginning of a line, unless it may stand on another's. */
  ghost predicate StandsAt(u: string, n: int, onLine: bool) {
    && Column(u) == n
    && (!onLine ==> n >= 0 && exists before :: u == before + NewLine(n))
  }

  lemma BegunStands(t: string, n: nat, lead: Lead)
    requires lead == AtStart ==> t == "" && n == 0
    ensures StandsAt(Begun(t, n, lead), n, lead != NextLine)
  {
    hide Column, LinesBefore;
    BegunAt(t, n, lead);
    NoColumn();
    if lead == NextLine { assert Begun(t, n, lead) == t + NewLine(n); }
  }

  lemma {:induction false} ChildStands(t: string, tree: Tree, place: Place, lead: Lead, outer: int, env: Env,
                                       path: seq<nat>)
    returns (u: string)
    requires ValidEnv(env) && ValidTree(tree) && Fits(t, place, lead, outer) && Leads(tree, path)
    ensures var n := ColumnOf(tree, path, outer, place, env.cfg.bestIndent);
      && StandsAt(u, n, OnLineOf(tree, path, lead))
      && BeginsBehind(u, TreeForm(t, tree, place, lead, outer, env), tree, path, n, env)
    decreases tree, 1
  {
    hide StandsAt, KeyStart, KeyFits, Column;
    var n := Inner(outer, place, env.cfg.bestIndent);
    InnerIs(outer, place, env.cfg);
    match tree
    case TList(items) => u := ItemStands(t, items, lead, n, env, tree, path, path[0]);
    case TObject(entries) => u := EntryStands(t, entries, lead, n, env, tree, path, path[0]);
  }

  lemma ItemStands(t: string, items: seq<Tree>, lead: Lead, n: nat, env: Env, tree: Tree, path: seq<nat>, k: nat)
    returns (u: string)
    requires ValidEnv(env) && ValidItems(items) && (lead == AtStart ==> t == "" && n == 0)
    requires tree.TList? && Leads(tree, path) && k < |items| && items[k] == tree.items[path[0]]
    ensures var text := ItemsForm(t, items, lead, n, env);
      if |path| == 1 then StandsAt(u, n, k == 0 && lead != NextLine) && u + "-" <= text
      else
        var col := ColumnOf(items[k], path[1..], n, InList, env.cfg.bestIndent);
        && StandsAt(u, col, OnLineOf(items[k], path[1..], SameLine))
        && BeginsBehind(u, text, items[k], path[1..], col, env)
    decreases items, 0
  {
    hide StandsAt, KeyStart, KeyFits, Column, TreeForm, Begun, OnLineOf, ColumnOf;
    var dash := Begun(t, n, lead) + "-";
    var first := TreeForm(dash, items[0], InList, SameLine, n, env);
    TreeGrows(dash, items[0], InList, SameLine, n, env);
    ItemsGrow(first, items[1..], NextLine, n, env);
    if k > 0 {
      u := ItemStands(first, items[1..], NextLine, n, env, tree, path, k - 1);
    } else if |path| == 1 {
      u := Begun(t, n, lead);
      BegunStands(t, n, lead);
    } else {
      u := ChildStands(dash, items[0], InList, SameLine, n, env, path[1..]);
      LongerText(u, first, ItemsForm(t, items, lead, n, env), items[0], path[1..],
                 ColumnOf(items[0], path[1..], n, InList, env.cfg.bestIndent), env);
    }
  }

  lemma EntryStands(t: string, entries: seq<Entry>, lead: Lead, n: nat, env: Env, tree: Tree, path: seq<nat>, k: nat)
    returns (u: string)
    requires ValidEnv(env) && ValidEntries(entries) && (lead == AtStart ==> t == "" && n == 0)
    requires tree.TObject? && Leads(tree, path) && k < |entries| && entries[k] == tree.entries[path[0]]
    ensures var text := EntriesForm(t, entries, lead, n, env);
      if |path| == 1 then StandsAt(u, n, k == 0 && lead != NextLine) && KeyStart(u, entries[k].key, n, env) <= text
      else
        var col := ColumnOf(entries[k].value, path[1..], n, InObject, env.cfg.bestIndent);
        && StandsAt(u, col, OnLineOf(entries[k].value, path[1..],
                                     if KeyFits(entries[k].key) then NextLine else SameLine))
        && BeginsBehind(u, text, entries[k].value, path[1..], col, env)
    decreases entries, 0
  {
    hide StandsAt, KeyStart, KeyFits, Column, TreeForm, Begun, OnLineOf, ColumnOf, KeyForm;
    var key, value := entries[0].key, entries[0].value;
    var colon := KeyForm(t, key, lead, n, env);
    var next := if KeyFits(key) then NextLine else SameLine;
    var first := TreeForm(colon, value, InObject, next, n, env);
    KeyGrows(t, key, lead, n, env);
    TreeGrows(colon, value, InObject, next, n, env);
    EntriesGrow(first, entries[1..], NextLine, n, env);
    if k > 0 {
      u := EntryStands(first, entries[1..], NextLine, n, env, tree, path, k - 1);
    } else if |path| == 1 {
      u := Begun(t, n, lead);
      BegunStands(t, n, lead);
    } else {
      u := ChildStands(colon, value, InObject, next, n, env, path[1..]);
      LongerText(u, first, EntriesForm(t, entries, lead, n, env), value, path[1..],
                 ColumnOf(value, path[1..], n, InObject, env.cfg.bestIndent), env);
    }
  }

  lemma {:induction false} LongerText(u: string, a: string, b: string, tree: Tree, path: seq<nat>, n: int, env: Env)
    requires ValidEnv(env) && Leads(tree, path) && a <= b && BeginsBehind(u, a, tree, path, n, env)
    ensures BeginsBehind(u, b, tree, path, n, env)
    decreases |path|
  {
    hide KeyStart;
    if |path| > 1 {
      LongerText(u, a, b, if tree.TList? then tree.items[path[0]] else tree.entries[path[0]].value, path[1..], n, env);
    }
  }

  /**
   Every item and every entry of a printed document stands in the column of its nesting: each list
   in a list two columns further in, each collection in a mapping at the next multiple of the
   indentation, so that d mappings deep there are exactly d times as many blanks in front; and it
   begins a line, but for the first children of what may begin behind a dash or a long key's colon.
   */
  lemma EverythingStands(tree: Tree, env: Env, path: seq<nat>) returns (u: string)
    requires ValidEnv(env) && ValidTree(tree) && Leads(tree, path)
    ensures var n := ColumnOf(tree, path, -1, Root, env.cfg.bestIndent);
      && StandsAt(u, n, OnLineOf(tree, path, AtStart))
      && BeginsBehind(u, EmitDocument(tree, env).out, tree, path, n, env)
      && (AllMappings(tree, path) ==> n == (|path| - 1) * env.cfg.bestIndent)
      && (AllLists(tree, path) ==> n == 2 * (|path| - 1))
  {
    hide TreeForm, StandsAt, BeginsBehind, ColumnOf, AllMappings, AllLists, OnLineOf, EmitDocument;
    u := ChildStands("", tree, Root, AtStart, -1, env, path);
    DocumentPrinted(tree, env);
    NestedColumns(tree, path, env.cfg.bestIndent);
    LongerText(u, TreeForm("", tree, Root, AtStart, -1, env), DocumentForm(tree, env), tree, path,
               ColumnOf(tree, path, -1, Root, env.cfg.bestIndent), env);
  }
}
