/**
 What aliases and repeated keys mean in the values that are read: told about positions in lists and
 mappings, without the table of anchors.
 */
module ComposeLaws {
  import opened Options
  import opened Resolve
  import opened Composer
  import opened Tokens
  import opened Layout
  import RoundTrip

  /** The anchors given in a node, at any depth. */
  function Names(n: Node): set<string>
    decreases n, 1
  {
    match n
    case AliasNode(_) => {}
    case ScalarNode(anchor, _, _, _) => {anchor}
    case SequenceNode(anchor, _, items) => {anchor} + ItemNames(items)
    case MappingNode(anchor, _, pairs) => {anchor} + PairNames(pairs)
  }

  function ItemNames(items: seq<Node>): set<string>
    decreases items, 0
  {
    if items == [] then {} else Names(items[0]) + ItemNames(items[1..])
  }

  function PairNames(pairs: seq<Pair>): set<string>
    decreases pairs, 0
  {
    if pairs == [] then {} else OnePairNames(pairs[0]) + PairNames(pairs[1..])
  }

  function OnePairNames(p: Pair): set<string>
    decreases p, 2
  {
    Names(p.key) + Names(p.value)
  }

  /** Only these anchors may differ. */
  predicate But(a: Anchors, b: Anchors, names: set<string>) {
    && (forall x :: x in a && x !in names ==> x in b && b[x] == a[x])
    && (forall x :: x in b && x !in names ==> x in a)
  }

  /** A node gives its own anchors, and no others. */
  lemma {:induction false} OnlyItsNames(n: Node, anchors: Anchors, lib: Library)
    ensures Denote(n, anchors, lib).Ok? ==> But(anchors, Denote(n, anchors, lib).value.anchors, Names(n))
    decreases n, 1
  {
    match n
    case SequenceNode(_, _, items) => OnlyItemNames(items, anchors, lib);
    case MappingNode(_, _, pairs) => OnlyPairNames(pairs, anchors, map[], lib);
    case _ =>
  }

  lemma {:induction false} OnlyItemNames(items: seq<Node>, anchors: Anchors, lib: Library)
    ensures DenoteItems(items, anchors, lib).Ok? ==>
      But(anchors, DenoteItems(items, anchors, lib).value.1, ItemNames(items))
    decreases items, 0
  {
    if items != [] {
      OnlyItsNames(items[0], anchors, lib);
      if Denote(items[0], anchors, lib).Ok? {
        OnlyItemNames(items[1..], Denote(items[0], anchors, lib).value.anchors, lib);
      }
    }
  }

  lemma {:induction false} OnlyPairNames(pairs: seq<Pair>, anchors: Anchors, vals: map<string, Value>, lib: Library)
    ensures DenotePairs(pairs, anchors, vals, lib).Ok? ==>
      But(anchors, DenotePairs(pairs, anchors, vals, lib).value.anchors, PairNames(pairs))
    decreases pairs, 0
  {
    if pairs != [] {
      OnePairsNames(pairs[0], anchors, lib);
      if DenotePair(pairs[0], anchors, lib).Ok? {
        var (key, d) := DenotePair(pairs[0], anchors, lib).value;
        OnlyPairNames(pairs[1..], d.anchors, vals[key := d.value], lib);
      }
    }
  }

  lemma {:induction false} OnePairsNames(p: Pair, anchors: Anchors, lib: Library)
    ensures DenotePair(p, anchors, lib).Ok? ==>
      But(anchors, DenotePair(p, anchors, lib).value.1.anchors, OnePairNames(p))
    decreases p, 2
  {
    hide KeyString;
    OnlyItsNames(p.key, anchors, lib);
    if Denote(p.key, anchors, lib).Ok? { OnlyItsNames(p.value, Denote(p.key, anchors, lib).value.anchors, lib); }
  }

  /** The value that a node with an anchor is given is what the anchor then stands for. */
  lemma OwnAnchor(n: Node, anchors: Anchors, lib: Library)
    requires !n.AliasNode? && n.anchor != "" && Denote(n, anchors, lib).Ok?
    ensures var d := Denote(n, anchors, lib).value; n.anchor in d.anchors && d.anchors[n.anchor] == d.value
  {
    hide ScalarValue, DenoteItems, DenotePairs;
  }

  /** An alias to an anchor that is not given again in between. */
  lemma {:induction false} AliasThere(items: seq<Node>, j: nat, name: string, anchors: Anchors, lib: Library)
    requires j < |items| && items[j] == AliasNode(name) && forall k :: 0 <= k < j ==> name !in Names(items[k])
    requires DenoteItems(items, anchors, lib).Ok?
    ensures |DenoteItems(items, anchors, lib).value.0| == |items|
    ensures name in anchors && DenoteItems(items, anchors, lib).value.0[j] == anchors[name]
    decreases |items|
  {
    hide Denote, Names;
    var d := Denote(items[0], anchors, lib).value;
    ItemCount(items, anchors, lib);
    if j == 0 {
      AliasValue(name, anchors, lib);
    } else {
      OnlyItsNames(items[0], anchors, lib);
      AliasThere(items[1..], j - 1, name, d.anchors, lib);
    }
  }

  lemma AliasValue(name: string, anchors: Anchors, lib: Library)
    ensures Denote(AliasNode(name), anchors, lib).Ok? <==> name in anchors
    ensures name in anchors ==> Denote(AliasNode(name), anchors, lib).value.value == anchors[name]
  {
  }

  lemma {:induction false} ItemCount(items: seq<Node>, anchors: Anchors, lib: Library)
    requires DenoteItems(items, anchors, lib).Ok?
    ensures |DenoteItems(items, anchors, lib).value.0| == |items|
    decreases |items|
  {
    hide Denote;
    if items != [] { ItemCount(items[1..], Denote(items[0], anchors, lib).value.anchors, lib); }
  }

  /** In a list, an alias has the value of the last item before it that gives its anchor. */
  lemma {:induction false} AliasIsLast(items: seq<Node>, i: nat, j: nat, anchors: Anchors, lib: Library)
    requires i < j < |items| && !items[i].AliasNode? && items[i].anchor != "" && items[j] == AliasNode(items[i].anchor)
    requires forall k :: i < k < j ==> items[i].anchor !in Names(items[k])
    requires DenoteItems(items, anchors, lib).Ok?
    ensures var vals := DenoteItems(items, anchors, lib).value.0; |vals| == |items| && vals[i] == vals[j]
    decreases i
  {
    hide Denote, Names;
    var d := Denote(items[0], anchors, lib).value;
    ItemCount(items, anchors, lib);
    if i == 0 {
      OwnAnchor(items[0], anchors, lib);
      AliasThere(items[1..], j - 1, items[0].anchor, d.anchors, lib);
    } else {
      AliasIsLast(items[1..], i - 1, j - 1, d.anchors, lib);
    }
  }

  /** A list with an alias to an anchor that nothing before it gives has no value. */
  lemma {:induction false} AliasUnknown(items: seq<Node>, j: nat, name: string, anchors: Anchors, lib: Library)
    requires j < |items| && items[j] == AliasNode(name) && name !in anchors
    requires forall k :: 0 <= k < j ==> name !in Names(items[k])
    ensures DenoteItems(items, anchors, lib).Err?
  {
    hide Denote, DenoteItems, Names;
    if DenoteItems(items, anchors, lib).Ok? { AliasThere(items, j, name, anchors, lib); }
  }

  // ---------- repeated keys ----------

  /** The keys and values of a mapping as they come. */
  function Members(pairs: seq<Pair>, anchors: Anchors, lib: Library): Result<seq<(string, Value)>, Failure>
    decreases |pairs|
  {
    if pairs == [] then Ok([])
    else
      match DenotePair(pairs[0], anchors, lib)
      case Err(e) => Err(e)
      case Ok((key, d)) =>
        match Members(pairs[1..], d.anchors, lib)
        case Err(e) => Err(e)
        case Ok(more) => Ok([(key, d.value)] + more)
  }

  /** The last value given for the key, if there is one. */
  function LastFor(ms: seq<(string, Value)>, key: string): Option<Value>
    decreases |ms|
  {
    var n := |ms|;
    if n == 0 then None else if ms[n - 1].0 == key then Some(ms[n - 1].1) else LastFor(ms[..n - 1], key)
  }

  /** One more in front matters only if the key does not come again. */
  lemma {:induction false} LastOn(m: (string, Value), more: seq<(string, Value)>, key: string)
    ensures LastFor([m] + more, key) ==
      if LastFor(more, key).Some? then LastFor(more, key) else if m.0 == key then Some(m.1) else None
    decreases |more|
  {
    var ms, n := [m] + more, |more|;
    if n == 0 {
      assert ms[..0] == [];
    } else {
      assert ms[..n] == [m] + more[..n - 1] && ms[n] == more[n - 1];
      LastOn(m, more[..n - 1], key);
    }
  }

  /** The member at the key is the last one given; what there was before stays if none is. */
  predicate MemberAt(ms: seq<(string, Value)>, vals: map<string, Value>, members: map<string, Value>, key: string) {
    match LastFor(ms, key)
    case Some(v) => key in members && members[key] == v
    case None => (key in members <==> key in vals) && (key in vals ==> members[key] == vals[key])
  }

  ghost predicate Collected(ms: seq<(string, Value)>, vals: map<string, Value>, members: map<string, Value>) {
    forall key :: MemberAt(ms, vals, members, key)
  }

  lemma CollectedOne(m: (string, Value), more: seq<(string, Value)>, vals: map<string, Value>,
                     members: map<string, Value>)
    requires Collected(more, vals[m.0 := m.1], members)
    ensures Collected([m] + more, vals, members)
  {
    hide LastFor;
    forall key ensures MemberAt([m] + more, vals, members, key) {
      assert MemberAt(more, vals[m.0 := m.1], members, key);
      LastOn(m, more, key);
    }
  }

  /** The members of an object are those given, the last one for each key. */
  lemma {:induction false} LastMembers(pairs: seq<Pair>, anchors: Anchors, vals: map<string, Value>, lib: Library)
    ensures DenotePairs(pairs, anchors, vals, lib).Ok? <==> Members(pairs, anchors, lib).Ok?
    ensures Members(pairs, anchors, lib).Ok? ==>
      var v := DenotePairs(pairs, anchors, vals, lib).value.value;
      v.VObject? && Collected(Members(pairs, anchors, lib).value, vals, v.members)
    decreases |pairs|
  {
    hide DenotePair, Collected;
    if pairs == [] {
      assert Collected([], vals, vals) by { NoneCollected(vals); }
    } else if DenotePair(pairs[0], anchors, lib).Ok? {
      var (key, d) := DenotePair(pairs[0], anchors, lib).value;
      LastMembers(pairs[1..], d.anchors, vals[key := d.value], lib);
      if Members(pairs, anchors, lib).Ok? {
        CollectedOne((key, d.value), Members(pairs[1..], d.anchors, lib).value, vals,
                     DenotePairs(pairs, anchors, vals, lib).value.value.members);
      }
    }
  }

  lemma NoneCollected(vals: map<string, Value>)
    ensures Collected([], vals, vals)
  {
  }

  /** The key that null or a boolean makes is its word in JSON. */
  lemma WordKeys(tree: Tree, lib: Library)
    requires tree.TNull? || tree.TBool?
    ensures KeyString(RoundTrip.ValueOf(tree, lib.numbers), lib) == Ok(LeafText(tree))
  {
  }
}
