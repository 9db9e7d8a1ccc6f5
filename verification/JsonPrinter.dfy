/**
 From a decoded JSON document to YAML and back, as it runs: the recursive printer hands the
 emitter one event after another.
 */
module JsonPrinter {
  import opened Unicode
  import opened Pens
  import opened Options
  import opened Resolve
  import opened Tokens
  import opened Layout
  import opened LayoutTokens
  import opened PrintedForm
  import opened PrintedExactly
  import opened RoundTrip
  import E = Emitter
  import R = EmitterRun
  import Y = YamlEmitter

  function ThenAll(r: Result<E.Queued, E.Outcome>, rest: seq<E.EmitEvent>, cfg: Config): Result<E.Queued, E.Outcome>
    requires ValidConfig(cfg)
  {
    if r.Err? then Err(r.error) else E.EmitAll(r.value, rest, cfg)
  }

  lemma EmitOne(e: E.Queued, event: E.EmitEvent, rest: seq<E.EmitEvent>, cfg: Config)
    requires ValidConfig(cfg)
    ensures E.EmitAll(e, [event] + rest, cfg) == ThenAll(E.Emit(e, event, cfg), rest, cfg)
  {
    hide E.Emit;
    assert ([event] + rest)[1..] == rest;
  }

  /** The printer gets on with these events as the emitter does. */
  ghost predicate Goes(e: E.Queued, events: seq<E.EmitEvent>, cfg: Config)
    requires ValidConfig(cfg)
  {
    E.EmitAll(e, events, cfg).Ok?
  }

  /** From one state with these events the emitter comes to the same end as from the other with those. */
  ghost predicate SameEnd(e: E.Queued, events: seq<E.EmitEvent>, e1: E.Queued, rest: seq<E.EmitEvent>, cfg: Config)
    requires ValidConfig(cfg)
  {
    E.EmitAll(e, events, cfg) == E.EmitAll(e1, rest, cfg)
  }

  /** Hands over one event, with others to follow. */
  method EmitEvent(em: Y.YamlEmitter, event: E.EmitEvent, ghost rest: seq<E.EmitEvent>)
    requires em.Valid() && Goes(em.Queued(), [event] + rest, em.cfg)
    modifies em, em.out, em.out.buffer
    ensures em.Valid() && SameEnd(old(em.Queued()), [event] + rest, em.Queued(), rest, em.cfg)
    ensures event.StreamEnd? && em.Queue() == [] ==> em.out.bufferPos == 0
  {
    hide E.Emit;
    EmitOne(em.Queued(), event, rest, em.cfg);
    var ok := em.Emit(event);
    assert ok;
  }

  /** Prints a value. It stops at a number that JSON's decoder lets through but YAML would not carry. */
  method EmitValue(em: Y.YamlEmitter, tree: Tree, nums: Numbers, ghost rest: seq<E.EmitEvent>) returns (ok: bool)
    requires em.Valid() && Goes(em.Queued(), R.NodeEvents(tree, JsonEnv(em.cfg, nums)) + rest, em.cfg)
    modifies em, em.out, em.out.buffer
    ensures em.Valid() && ok == Accepted(tree, nums)
    ensures ok ==>
      SameEnd(old(em.Queued()), R.NodeEvents(tree, JsonEnv(em.cfg, nums)) + rest, em.Queued(), rest, em.cfg)
    decreases tree, 1
  {
    hide E.EmitAll, StringStyle;
    ghost var env := JsonEnv(em.cfg, nums);
    match tree
    case TNull =>
      EmitEvent(em, E.Scalar("null", Plain), rest);
      ok := true;
    case TBool(b) =>
      EmitEvent(em, E.Scalar(if b then "true" else "false", Plain), rest);
      ok := true;
    case TNumber(text) =>
      ok := NumberAccepted(text, nums);
      if ok {
        EmitEvent(em, E.Scalar(text, Plain), rest);
      }
    case TString(s) =>
      EmitEvent(em, E.Scalar(s, StringStyle(s, nums)), rest);
      ok := true;
    case TList(items) =>
      ghost var inside := R.ItemEvents(items, env);
      ghost var end := [E.SequenceEnd] + rest;
      assert R.NodeEvents(tree, env) + rest == [E.SequenceStart(false)] + (inside + end);
      EmitEvent(em, E.SequenceStart(false), inside + end);
      ok := EmitSequence(em, items, nums, end);
      if ok {
        EmitEvent(em, E.SequenceEnd, rest);
      }
    case TObject(entries) =>
      ghost var inside := R.EntryEvents(entries, env);
      ghost var end := [E.MappingEnd] + rest;
      assert R.NodeEvents(tree, env) + rest == [E.MappingStart(false)] + (inside + end);
      EmitEvent(em, E.MappingStart(false), inside + end);
      ok := EmitMapping(em, entries, nums, end);
      if ok {
        EmitEvent(em, E.MappingEnd, rest);
      }
  }

  method EmitSequence(em: Y.YamlEmitter, items: seq<Tree>, nums: Numbers, ghost rest: seq<E.EmitEvent>)
    returns (ok: bool)
    requires em.Valid() && Goes(em.Queued(), R.ItemEvents(items, JsonEnv(em.cfg, nums)) + rest, em.cfg)
    modifies em, em.out, em.out.buffer
    ensures em.Valid() && ok == ItemsAccepted(items, nums)
    ensures ok ==>
      SameEnd(old(em.Queued()), R.ItemEvents(items, JsonEnv(em.cfg, nums)) + rest, em.Queued(), rest, em.cfg)
    decreases items, 0
  {
    hide E.EmitAll, R.NodeEvents;
    ghost var env := JsonEnv(em.cfg, nums);
    ghost var all := E.EmitAll(em.Queued(), R.ItemEvents(items, env) + rest, em.cfg);
    var i := 0;
    while i < |items|
      invariant i <= |items| && em.Valid()
      invariant ItemsAccepted(items, nums) == ItemsAccepted(items[i..], nums)
      invariant E.EmitAll(em.Queued(), R.ItemEvents(items[i..], env) + rest, em.cfg) == all
    {
      ghost var more := R.ItemEvents(items[i + 1..], env) + rest;
      assert items[i..][0] == items[i] && items[i..][1..] == items[i + 1..];
      assert R.ItemEvents(items[i..], env) + rest == R.NodeEvents(items[i], env) + more;
      ok := EmitValue(em, items[i], nums, more);
      if !ok {
        return;
      }
      i := i + 1;
    }
    assert R.ItemEvents([], env) + rest == rest;
    ok := true;
  }

  method EmitMapping(em: Y.YamlEmitter, entries: seq<Entry>, nums: Numbers, ghost rest: seq<E.EmitEvent>)
    returns (ok: bool)
    requires em.Valid() && Goes(em.Queued(), R.EntryEvents(entries, JsonEnv(em.cfg, nums)) + rest, em.cfg)
    modifies em, em.out, em.out.buffer
    ensures em.Valid() && ok == EntriesAccepted(entries, nums)
    ensures ok ==>
      SameEnd(old(em.Queued()), R.EntryEvents(entries, JsonEnv(em.cfg, nums)) + rest, em.Queued(), rest, em.cfg)
    decreases entries, 0
  {
    hide E.EmitAll, R.NodeEvents, StringStyle;
    ghost var env := JsonEnv(em.cfg, nums);
    ghost var all := E.EmitAll(em.Queued(), R.EntryEvents(entries, env) + rest, em.cfg);
    var i := 0;
    while i < |entries|
      invariant i <= |entries| && em.Valid()
      invariant EntriesAccepted(entries, nums) == EntriesAccepted(entries[i..], nums)
      invariant E.EmitAll(em.Queued(), R.EntryEvents(entries[i..], env) + rest, em.cfg) == all
    {
      var key, value := entries[i].key, entries[i].value;
      ghost var more := R.EntryEvents(entries[i + 1..], env) + rest;
      ghost var valued := R.NodeEvents(value, env) + more;
      assert entries[i..][0] == entries[i] && entries[i..][1..] == entries[i + 1..];
      assert R.EntryEvents(entries[i..], env) + rest == [R.KeyEvent(key, env)] + valued;
      EmitEvent(em, E.Scalar(key, StringStyle(key, nums)), valued);
      ok := EmitValue(em, value, nums, more);
      if !ok {
        return;
      }
      i := i + 1;
    }
    assert R.EntryEvents([], env) + rest == rest;
    ok := true;
  }

  /** The YAML of a JSON document: its printed form, every byte of it flushed. */
  method JsonToYaml(tree: Tree, cfg: Config, nums: Numbers) returns (bytes: Option<seq<byte>>)
    requires ValidConfig(cfg)
    ensures bytes.Some? <==> Accepted(tree, nums)
    ensures bytes.Some? ==>
      && bytes.value == EncodeAll(EmitDocument(tree, JsonEnv(cfg, nums)).out)
      && Printed(tree, cfg, nums) == Ok(bytes.value)
      && (ValidTree(tree) ==> bytes.value == EncodeAll(DocumentForm(tree, JsonEnv(cfg, nums))))
  {
    hide E.EmitAll, R.NodeEvents, EncodeAll, EmitDocument, StringStyle, DocumentForm, ValidTree, Accepted;
    ghost var env := JsonEnv(cfg, nums);
    JsonEnvValid(cfg, nums);
    FormWritten(tree, env);
    R.DocumentEmitted(tree, env);
    var em := new Y.YamlEmitter(cfg);
    ghost var end := [E.DocumentEnd(true), E.StreamEnd];
    ghost var node := R.NodeEvents(tree, env);
    assert R.DocumentEvents(tree, env) == [E.StreamStart] + ([E.DocumentStart(true)] + (node + end));
    EmitEvent(em, E.StreamStart, [E.DocumentStart(true)] + (node + end));
    EmitEvent(em, E.DocumentStart(true), node + end);
    var ok := EmitValue(em, tree, nums, end);
    if !ok {
      return None;
    }
    assert end == [E.DocumentEnd(true)] + ([E.StreamEnd] + []);
    EmitEvent(em, E.DocumentEnd(true), [E.StreamEnd] + []);
    EmitEvent(em, E.StreamEnd, []);
    NothingMore(em.Queued(), cfg);
    assert em.Queued() == E.Queued(R.Ended(EmitDocument(tree, env)), []);
    assert em.out.buffer[..0] == [];
    bytes := Some(em.out.output);
  }

  lemma FormWritten(tree: Tree, env: Env)
    requires ValidEnv(env)
    ensures ValidTree(tree) ==> EncodeAll(EmitDocument(tree, env).out) == EncodeAll(DocumentForm(tree, env))
  {
    hide EmitDocument, DocumentForm, EncodeAll;
    if ValidTree(tree) { DocumentPrinted(tree, env); }
  }

  lemma JsonEnvValid(cfg: Config, nums: Numbers)
    requires ValidConfig(cfg)
    ensures ValidEnv(JsonEnv(cfg, nums))
  {
  }

  lemma NothingMore(e: E.Queued, cfg: Config)
    requires ValidConfig(cfg)
    ensures E.EmitAll(e, [], cfg) == Ok(e)
  {
  }
}
