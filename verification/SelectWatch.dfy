/**
 The watcher that selects one value of a directive and reports it. The callback may take or
 reject a value as it likes; what it was told is kept in `calls`.
 */
module SelectWatch {
  import opened Options

  /** A call of the callback: with a value and its answer, or with nil. */
  datatype Call<T> = Offered(id: nat, val: T, accepted: bool) | Cleared

  /** The value the callback believes to be selected. */
  function LastReport<T>(calls: seq<Call<T>>): Option<(nat, T)> {
    if calls == [] then None
    else
      var before, last := calls[..|calls| - 1], calls[|calls| - 1];
      match last
      case Cleared => None
      case Offered(id, val, accepted) => if accepted then Some((id, val)) else LastReport(before)
  }

  lemma {:induction false} RejectedChangeNothing<T>(calls: seq<Call<T>>, more: seq<Call<T>>)
    requires AllRejected(more)
    ensures LastReport(calls + more) == LastReport(calls)
    decreases |more|
  {
    if more == [] {
      assert calls + more == calls;
    } else {
      var last := |more| - 1;
      assert (calls + more)[..|calls + more| - 1] == calls + more[..last];
      RejectedChangeNothing(calls, more[..last]);
    }
  }

  lemma LastCall<T>(calls: seq<Call<T>>, call: Call<T>)
    ensures call.Cleared? ==> LastReport(calls + [call]) == None
    ensures call.Offered? && call.accepted ==> LastReport(calls + [call]) == Some((call.id, call.val))
    ensures call.Offered? && !call.accepted ==> LastReport(calls + [call]) == LastReport(calls)
  {
    assert (calls + [call])[..|calls|] == calls;
  }

  predicate AllRejected<T>(calls: seq<Call<T>>) {
    forall i :: 0 <= i < |calls| ==> calls[i].Offered? && !calls[i].accepted
  }

  /** nil is among the calls. */
  predicate Clears<T>(calls: seq<Call<T>>) {
    exists i :: 0 <= i < |calls| && calls[i].Cleared?
  }

  // ---------- every run ----------

  datatype State<T> = State(hasCallback: bool, curr: nat, vals: map<nat, T>, calls: seq<Call<T>>)

  /**
   A value is added, and taken or not if it is offered; or one is removed, and if it was the
   selected one, those left are offered in some order, until the last of these is taken, or all
   are rejected.
   */
  datatype Op<T> = Add(id: nat, val: T, takes: bool) | Remove(id: nat, offered: seq<nat>, taken: bool)

  function Start<T>(hasCallback: bool): State<T> {
    State(hasCallback, 0, map[], [])
  }

  /** The values offered are different ones of those left; without a callback the first is taken. */
  predicate Offers<T>(left: map<nat, T>, hasCallback: bool, offered: seq<nat>, taken: bool) {
    && (forall i :: 0 <= i < |offered| ==> offered[i] in left)
    && (forall i, j :: 0 <= i < j < |offered| ==> offered[i] != offered[j])
    && (taken ==> offered != [])
    && (!taken ==> forall k :: k in left ==> k in offered)
    && (!hasCallback ==> |offered| <= 1 && (offered != [] ==> taken))
  }

  /** IDs are not 0, and those of different values differ. */
  predicate Possible<T>(s: State<T>, op: Op<T>) {
    match op
    case Add(id, _, _) => id >= 1 && id !in s.vals
    case Remove(id, offered, taken) =>
      id >= 1 && (s.curr == id ==> Offers(s.vals - {id}, s.hasCallback, offered, taken))
  }

  /** Offers that were rejected. */
  function Rejections<T>(left: map<nat, T>, ids: seq<nat>): (calls: seq<Call<T>>)
    requires forall i :: 0 <= i < |ids| ==> ids[i] in left
    ensures |calls| == |ids| && AllRejected(calls)
  {
    seq(|ids|, i requires 0 <= i < |ids| => Offered(ids[i], left[ids[i]], false))
  }

  function Listed(ids: seq<nat>): set<nat> {
    set i | 0 <= i < |ids| :: ids[i]
  }

  /** The selected value is gone: another is selected, or none is left. */
  function Reselect<T>(s: State<T>, left: map<nat, T>, offered: seq<nat>, taken: bool): State<T>
    requires Offers(left, s.hasCallback, offered, taken)
  {
    if taken then
      var last := |offered| - 1;
      var id, rejected := offered[last], offered[..last];
      State(s.hasCallback, id, left - Listed(rejected),
            if s.hasCallback then s.calls + Rejections(left, rejected) + [Offered(id, left[id], true)] else s.calls)
    else
      State(s.hasCallback, 0, left - Listed(offered),
            if s.hasCallback then s.calls + Rejections(left, offered) + [Cleared] else s.calls)
  }

  function Step<T>(s: State<T>, op: Op<T>): State<T>
    requires Possible(s, op)
  {
    match op
    case Add(id, val, takes) =>
      if s.curr != 0 then s.(vals := s.vals[id := val])
      else if !s.hasCallback then s.(curr := id, vals := s.vals[id := val])
      else if takes then s.(curr := id, vals := s.vals[id := val], calls := s.calls + [Offered(id, val, true)])
      else s.(calls := s.calls + [Offered(id, val, false)])
    case Remove(id, offered, taken) =>
      if s.curr != id then s.(vals := s.vals - {id}) else Reselect(s, s.vals - {id}, offered, taken)
  }

  function Selected<T>(s: State<T>): Option<(nat, T)>
    requires s.curr != 0 ==> s.curr in s.vals
  {
    if s.curr == 0 then None else Some((s.curr, s.vals[s.curr]))
  }

  /**
   A value is selected just when there is one, and it is one of those there are; and it is the
   one that the callback accepted last.
   */
  predicate Invariant<T(==)>(s: State<T>) {
    && 0 !in s.vals
    && (s.curr == 0 <==> s.vals == map[])
    && (s.curr != 0 ==> s.curr in s.vals)
    && (if s.hasCallback then LastReport(s.calls) == Selected(s) else s.calls == [])
  }

  lemma ReselectHolds<T>(s: State<T>, left: map<nat, T>, offered: seq<nat>, taken: bool)
    requires 0 !in left && Offers(left, s.hasCallback, offered, taken) && (!s.hasCallback ==> s.calls == [])
    ensures Invariant(Reselect(s, left, offered, taken))
  {
    hide LastReport, AllRejected;
    var s1 := Reselect(s, left, offered, taken);
    if taken {
      var last := |offered| - 1;
      var id, rejected := offered[last], offered[..last];
      assert id !in Listed(rejected);
      assert id in s1.vals;
      LastCall(s.calls + Rejections(left, rejected), Offered(id, left[id], true));
    } else {
      forall k | k in left ensures k in Listed(offered) {
        var i :| 0 <= i < |offered| && offered[i] == k;
      }
      assert s1.vals == map[];
      LastCall(s.calls + Rejections(left, offered), Cleared);
    }
  }

  lemma StepHolds<T>(s: State<T>, op: Op<T>)
    requires Invariant(s) && Possible(s, op)
    ensures Invariant(Step(s, op)) && Step(s, op).hasCallback == s.hasCallback
  {
    hide LastReport, Reselect;
    match op
    case Add(id, val, takes) => LastCall(s.calls, Offered(id, val, takes));
    case Remove(id, offered, taken) =>
      if s.curr == id {
        ReselectHolds(s, s.vals - {id}, offered, taken);
        ReselectSame(s, s.vals - {id}, offered, taken);
      } else if s.curr != 0 {
        assert s.curr in s.vals - {id};
      } else {
        assert s.vals - {id} == map[];
      }
  }

  lemma ReselectSame<T>(s: State<T>, left: map<nat, T>, offered: seq<nat>, taken: bool)
    requires Offers(left, s.hasCallback, offered, taken)
    ensures Reselect(s, left, offered, taken).hasCallback == s.hasCallback
  {
  }

  /** nil is reported in a step just when the selection drops from some value to none. */
  lemma ClearedJustThen<T>(s: State<T>, op: Op<T>)
    requires Invariant(s) && Possible(s, op) && s.hasCallback
    ensures var s1 := Step(s, op);
      && s.calls <= s1.calls && (Clears(s1.calls[|s.calls|..]) <==> s.curr != 0 && s1.curr == 0)
      && (Clears(s1.calls[|s.calls|..]) ==> s1.vals == map[])
  {
    hide LastReport;
    var s1 := Step(s, op);
    StepHolds(s, op);
    match op
    case Add(_, _, _) =>
    case Remove(id, offered, taken) =>
      if s.curr == id {
        var left := s.vals - {id};
        var rejected := Rejections(left, if taken then offered[..|offered| - 1] else offered);
        var last := if taken then Offered(s1.curr, left[s1.curr], true) else Cleared;
        assert s1.calls == s.calls + rejected + [last];
        LastClears(s.calls, rejected, last);
      } else {
        assert s1.calls[|s.calls|..] == [];
      }
  }

  lemma LastClears<T>(calls: seq<Call<T>>, rejected: seq<Call<T>>, last: Call<T>)
    requires AllRejected(rejected)
    ensures var more := (calls + rejected + [last])[|calls|..]; Clears(more) <==> last.Cleared?
  {
    var more := (calls + rejected + [last])[|calls|..];
    assert more == rejected + [last];
    assert more[|rejected|] == last;
  }

  predicate PossibleRun<T>(s: State<T>, ops: seq<Op<T>>)
    decreases |ops|
  {
    ops == [] || (Possible(s, ops[0]) && PossibleRun(Step(s, ops[0]), ops[1..]))
  }

  function RunAll<T>(s: State<T>, ops: seq<Op<T>>): State<T>
    requires PossibleRun(s, ops)
    decreases |ops|
  {
    if ops == [] then s else RunAll(Step(s, ops[0]), ops[1..])
  }

  // ---------- what there is to select ----------

  /** What happens to values: the directive adds and removes them, the callback rejects them. */
  datatype Note<T> = Added(id: nat, val: T) | Removed(id: nat) | Rejected(id: nat)

  /** The values added and since neither removed nor rejected. */
  function Live<T>(before: map<nat, T>, notes: seq<Note<T>>): map<nat, T>
    decreases |notes|
  {
    if notes == [] then before
    else
      match notes[0]
      case Added(id, val) => Live(before[id := val], notes[1..])
      case Removed(id) => Live(before - {id}, notes[1..])
      case Rejected(id) => Live(before - {id}, notes[1..])
  }

  function RejectedIn<T>(calls: seq<Call<T>>): seq<Note<T>>
    decreases |calls|
  {
    if calls == [] then []
    else
      (if calls[0].Offered? && !calls[0].accepted then [Rejected(calls[0].id)] else []) + RejectedIn(calls[1..])
  }

  /** What a step does, as the directive and the callback see it. */
  function NotesOf<T>(s: State<T>, op: Op<T>): seq<Note<T>>
    requires Possible(s, op) && s.calls <= Step(s, op).calls
  {
    var more := Step(s, op).calls[|s.calls|..];
    [match op case Add(id, val, _) => Added(id, val) case Remove(id, _, _) => Removed(id)] + RejectedIn(more)
  }

  lemma CallsGrow<T>(s: State<T>, op: Op<T>)
    requires Possible(s, op)
    ensures s.calls <= Step(s, op).calls
  {
  }

  function RunNotes<T>(s: State<T>, ops: seq<Op<T>>): seq<Note<T>>
    requires PossibleRun(s, ops)
    decreases |ops|
  {
    if ops == [] then []
    else
      CallsGrow(s, ops[0]);
      NotesOf(s, ops[0]) + RunNotes(Step(s, ops[0]), ops[1..])
  }

  lemma {:induction false} LiveJoin<T>(before: map<nat, T>, a: seq<Note<T>>, b: seq<Note<T>>)
    ensures Live(before, a + b) == Live(Live(before, a), b)
    decreases |a|
  {
    if a == [] {
      assert a + b == b;
    } else {
      assert (a + b)[0] == a[0] && (a + b)[1..] == a[1..] + b;
      var m := match a[0]
               case Added(id, val) => before[id := val]
               case Removed(id) => before - {id}
               case Rejected(id) => before - {id};
      LiveJoin(m, a[1..], b);
    }
  }

  lemma {:induction false} LiveRejections<T>(left: map<nat, T>, from: map<nat, T>, ids: seq<nat>, last: Call<T>)
    requires forall i :: 0 <= i < |ids| ==> ids[i] in left
    requires last.Cleared? || last.accepted
    ensures Live(from, RejectedIn(Rejections(left, ids) + [last])) == from - Listed(ids)
    decreases |ids|
  {
    var calls := Rejections(left, ids) + [last];
    if ids == [] {
      assert calls == [last] && RejectedIn(calls[1..]) == [];
      assert from - Listed(ids) == from;
    } else {
      assert calls[0] == Offered(ids[0], left[ids[0]], false);
      assert calls[1..] == Rejections(left, ids[1..]) + [last];
      var notes := RejectedIn(calls);
      assert notes[0] == Rejected(ids[0]) && notes[1..] == RejectedIn(calls[1..]);
      LiveRejections(left, from - {ids[0]}, ids[1..], last);
      assert ids == [ids[0]] + ids[1..];
      ListedFirst(ids);
      assert from - {ids[0]} - Listed(ids[1..]) == from - Listed(ids);
    }
  }

  lemma ListedFirst(ids: seq<nat>)
    requires ids != []
    ensures Listed(ids) == {ids[0]} + Listed(ids[1..])
  {
    forall k | k in Listed(ids) ensures k in {ids[0]} + Listed(ids[1..]) {
      var i :| 0 <= i < |ids| && ids[i] == k;
      if i > 0 { assert ids[1..][i - 1] == k; }
    }
    forall k | k in Listed(ids[1..]) ensures k in Listed(ids) {
      var i :| 0 <= i < |ids[1..]| && ids[1..][i] == k;
      assert ids[i + 1] == k;
    }
  }

  lemma LiveOne<T>(before: map<nat, T>, note: Note<T>, more: seq<Note<T>>)
    ensures note.Added? ==> Live(before, [note] + more) == Live(before[note.id := note.val], more)
    ensures !note.Added? ==> Live(before, [note] + more) == Live(before - {note.id}, more)
  {
    assert ([note] + more)[1..] == more;
  }

  /** No step forgets a value, or keeps one, by itself. */
  lemma StepKeeps<T>(s: State<T>, op: Op<T>)
    requires Invariant(s) && Possible(s, op)
    ensures s.calls <= Step(s, op).calls
    ensures Step(s, op).vals == Live(s.vals, NotesOf(s, op))
  {
    hide LastReport, Live, AllRejected;
    CallsGrow(s, op);
    var s1 := Step(s, op);
    var more := s1.calls[|s.calls|..];
    match op
    case Add(id, val, takes) =>
      LiveOne(s.vals, Added(id, val), RejectedIn(more));
      NothingRejected(s.vals[id := val], more);
      if s.curr == 0 && s.hasCallback {
        assert more == [Offered(id, val, takes)];
        OneCall(s.vals[id := val], more);
        assert s.vals[id := val] - {id} == s.vals;
      } else {
        assert more == [];
      }
    case Remove(id, offered, taken) =>
      var left := s.vals - {id};
      LiveOne(s.vals, Removed(id), RejectedIn(more));
      if s.curr == id && s.hasCallback {
        var rejected := if taken then offered[..|offered| - 1] else offered;
        var last := if taken then Offered(s1.curr, left[s1.curr], true) else Cleared;
        assert more == Rejections(left, rejected) + [last];
        LiveRejections(left, left, rejected, last);
      } else {
        assert more == [];
        NothingRejected(left, more);
        if s.curr == id { NothingOffered(left, offered, taken); }
      }
  }

  lemma NothingOffered<T>(left: map<nat, T>, offered: seq<nat>, taken: bool)
    requires Offers(left, false, offered, taken)
    ensures left - Listed(if taken then offered[..|offered| - 1] else offered) == left
  {
  }

  lemma NothingRejected<T>(before: map<nat, T>, calls: seq<Call<T>>)
    ensures calls == [] ==> Live(before, RejectedIn(calls)) == before
  {
  }

  lemma OneCall<T>(before: map<nat, T>, calls: seq<Call<T>>)
    requires |calls| == 1 && calls[0].Offered?
    ensures Live(before, RejectedIn(calls)) == if calls[0].accepted then before else before - {calls[0].id}
  {
    var call := calls[0];
    assert RejectedIn(calls[1..]) == [];
    if !call.accepted {
      assert RejectedIn(calls) == [Rejected(call.id)];
      LiveOne(before, Rejected(call.id), []);
    }
  }

  lemma {:induction false} RunKeeps<T>(s: State<T>, ops: seq<Op<T>>)
    requires Invariant(s) && PossibleRun(s, ops)
    ensures Invariant(RunAll(s, ops)) && RunAll(s, ops).vals == Live(s.vals, RunNotes(s, ops))
    decreases |ops|
  {
    hide Invariant, Live, Step, NotesOf;
    if ops == [] {
      LiveNothing(s.vals);
    } else {
      StepHolds(s, ops[0]);
      StepKeeps(s, ops[0]);
      RunKeeps(Step(s, ops[0]), ops[1..]);
      LiveJoin(s.vals, NotesOf(s, ops[0]), RunNotes(Step(s, ops[0]), ops[1..]));
    }
  }

  lemma LiveNothing<T>(before: map<nat, T>)
    ensures Live(before, []) == before
  {
  }

  /**
   On every run of additions, removals and answers of the callback, the invariant holds, and the
   values there are to select are exactly those added and since neither removed nor rejected.
   */
  lemma EveryRunHolds<T>(hasCallback: bool, ops: seq<Op<T>>)
    ensures PossibleRun(Start(hasCallback), ops) ==>
      var s := RunAll(Start(hasCallback), ops);
      && Invariant(s) && s.vals == Live(map[], RunNotes(Start(hasCallback), ops))
      && (s.curr == 0 <==> Live(map[], RunNotes(Start(hasCallback), ops)) == map[])
  {
    if PossibleRun(Start(hasCallback), ops) { RunKeeps(Start(hasCallback), ops); }
  }

  /** Until it is removed itself, what is selected stays so, and nothing is reported. */
  lemma SelectionStays<T>(s: State<T>, op: Op<T>)
    requires Invariant(s) && Possible(s, op) && s.curr != 0 && !(op.Remove? && op.id == s.curr)
    ensures Invariant(Step(s, op)) && Selected(Step(s, op)) == Selected(s) && Step(s, op).calls == s.calls
  {
    StepHolds(s, op);
  }

  /** These were offered so far, and rejected. */
  predicate Tried<T(==)>(s: State<T>, left: map<nat, T>, offered: seq<nat>, vals: map<nat, T>, calls: seq<Call<T>>) {
    && (forall i :: 0 <= i < |offered| ==> offered[i] in left)
    && (forall i, j :: 0 <= i < j < |offered| ==> offered[i] != offered[j])
    && vals == left - Listed(offered)
    && (if s.hasCallback then calls == s.calls + Rejections(left, offered) else offered == [] && calls == s.calls)
  }

  lemma TriedMore<T>(s: State<T>, left: map<nat, T>, offered: seq<nat>, vals: map<nat, T>, calls: seq<Call<T>>, id: nat)
    requires Tried(s, left, offered, vals, calls) && id in vals && s.hasCallback
    ensures Tried(s, left, offered + [id], vals - {id}, calls + [Offered(id, vals[id], false)])
  {
    hide AllRejected;
    var more := offered + [id];
    forall i | 0 <= i < |offered| ensures offered[i] != id {
      assert offered[i] in Listed(offered);
    }
    ListedOne(offered, id);
    assert Rejections(left, more) == Rejections(left, offered) + [Offered(id, left[id], false)];
  }

  lemma NothingTried<T>(s: State<T>)
    ensures Tried(s, s.vals, [], s.vals, s.calls)
  {
    assert Listed([]) == {};
  }

  lemma ListedOne(ids: seq<nat>, id: nat)
    ensures Listed(ids + [id]) == Listed(ids) + {id}
  {
    forall k | k in Listed(ids) + {id} ensures k in Listed(ids + [id]) {
      if k == id {
        assert (ids + [id])[|ids|] == k;
      } else {
        var i :| 0 <= i < |ids| && ids[i] == k;
        assert (ids + [id])[i] == k;
      }
    }
  }

  lemma TriedTaken<T>(s: State<T>, left: map<nat, T>, offered: seq<nat>, vals: map<nat, T>, calls: seq<Call<T>>,
                      id: nat)
    requires Tried(s, left, offered, vals, calls) && id in vals
    ensures Offers(left, s.hasCallback, offered + [id], true)
    ensures Reselect(s, left, offered + [id], true)
         == State(s.hasCallback, id, vals, if s.hasCallback then calls + [Offered(id, vals[id], true)] else calls)
  {
    hide AllRejected;
    var more := offered + [id];
    forall i | 0 <= i < |offered| ensures offered[i] != id {
      assert offered[i] in Listed(offered);
    }
    assert more[..|more| - 1] == offered;
  }

  lemma TriedAll<T>(s: State<T>, left: map<nat, T>, offered: seq<nat>, vals: map<nat, T>, calls: seq<Call<T>>)
    requires Tried(s, left, offered, vals, calls) && vals == map[]
    ensures Offers(left, s.hasCallback, offered, false)
    ensures Reselect(s, left, offered, false)
         == State(s.hasCallback, 0, vals, if s.hasCallback then calls + [Cleared] else calls)
  {
    hide AllRejected;
    forall k | k in left ensures k in offered {
      assert k !in vals;
      assert k in Listed(offered);
    }
  }

  class Selection<T(!new)> {
    const hasCallback: bool
    var currValueID: nat
    var vals: map<nat, T>
    ghost var calls: seq<Call<T>>
    ghost var disposed: bool

    constructor (hasCallback: bool)
      ensures Valid() && !disposed && View() == Start(hasCallback)
    {
      this.hasCallback := hasCallback;
      currValueID, vals, calls, disposed := 0, map[], [], false;
    }

    /** Until it is disposed, the selection keeps the invariant. */
    ghost predicate Valid()
      reads this
    {
      && 0 !in vals && (!disposed ==> Invariant(View())) && (!hasCallback ==> calls == [])
    }

    ghost function View(): State<T>
      reads this
    {
      State(hasCallback, currValueID, vals, calls)
    }

    /** The callback with a value. It may answer anything. */
    method Offer(id: nat, val: T) returns (accepted: bool)
      modifies this`calls
      ensures calls == old(calls) + [Offered(id, val, accepted)]
    {
      accepted := *;
      calls := calls + [Offered(id, val, accepted)];
    }

    method Clear()
      modifies this`calls
      ensures calls == old(calls) + [Cleared]
    {
      calls := calls + [Cleared];
    }

    method OnValue(id: nat, val: T) returns (ghost takes: bool)
      requires Valid() && id >= 1 && id !in vals && !disposed
      modifies this
      ensures Valid() && !disposed && View() == Step(old(View()), Add(id, val, takes))
    {
      takes := true;
      vals := vals[id := val];
      if currValueID == 0 {
        currValueID := id;
        if hasCallback {
          var accepted := Offer(id, val);
          takes := accepted;
          if !accepted {
            assert vals - {id} == old(vals);
            vals := vals - {id};
            currValueID := 0;
          }
        }
      }
      StepHolds(old(View()), Add(id, val, takes));
    }

    /** Offers the values there are, each once and in any order, until one is taken. */
    method SelectNext() returns (ghost offered: seq<nat>, ghost taken: bool)
      requires currValueID == 0 && 0 !in vals
      modifies this`currValueID, this`vals, this`calls
      ensures Offers(old(vals), hasCallback, offered, taken) && (taken <==> currValueID != 0)
      ensures taken ==> View() == Reselect(old(View()), old(vals), offered, true)
      ensures !taken ==>
        View().(calls := if hasCallback then calls + [Cleared] else calls)
          == Reselect(old(View()), old(vals), offered, false)
    {
      hide Offers, Reselect, Tried;
      offered, taken := [], false;
      var todo := vals.Keys;
      NothingTried(View());
      while todo != {}
        invariant currValueID == 0 && !taken && todo == vals.Keys && 0 !in vals
        invariant Tried(old(View()), old(vals), offered, vals, calls)
        decreases |todo|
      {
        var valID :| valID in todo;
        todo := todo - {valID};
        var val := vals[valID];
        TriedTaken(old(View()), old(vals), offered, vals, calls, valID);
        currValueID := valID;
        if hasCallback {
          TriedMore(old(View()), old(vals), offered, vals, calls, valID);
          var accepted := Offer(valID, val);
          if !accepted {
            currValueID := 0;
            vals := vals - {valID};
            offered := offered + [valID];
            continue;
          }
        }
        offered, taken := offered + [valID], true;
        return;
      }
      TriedAll(old(View()), old(vals), offered, vals, calls);
    }

    /**
     nil is reported just when the selection drops to none; otherwise the callback is offered
     values that are left, until it takes one, and those it rejects are forgotten.
     */
    method OnRemoved(id: nat) returns (ghost op: Op<T>)
      requires Valid() && id >= 1 && !disposed
      modifies this
      ensures op.Remove? && op.id == id && Possible(old(View()), op)
      ensures Valid() && !disposed && View() == Step(old(View()), op)
      ensures old(calls) <= calls
      ensures hasCallback ==>
        (Clears(calls[|old(calls)|..]) <==> old(currValueID) != 0 && currValueID == 0)
    {
      vals := vals - {id};
      op := Remove(id, [], false);
      if currValueID == id {
        currValueID := 0;
        ghost var offered, taken := SelectNext();
        op := Remove(id, offered, taken);
        if hasCallback && currValueID == 0 {
          Clear();
        }
      }
      StepHolds(old(View()), op);
      if hasCallback { ClearedJustThen(old(View()), op); }
    }

    method OnDispose()
      requires Valid()
      modifies this
      ensures Valid() && disposed && currValueID == 0 && vals == old(vals)
      ensures calls == if hasCallback && old(currValueID) != 0 then old(calls) + [Cleared] else old(calls)
      ensures !old(disposed) && hasCallback ==> LastReport(calls) == None
    {
      disposed := true;
      if currValueID != 0 {
        currValueID := 0;
        if hasCallback {
          Clear();
          LastCall(old(calls), Cleared);
        }
      }
    }
  }
}
