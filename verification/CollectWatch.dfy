/**
 The watcher that collects a directive's values and hands snapshots of them to a callback. The
 lock regions of its handlers and of its goroutine are the atomic steps; the broadcast is a
 generation counter.
 */
module CollectWatch {
  import opened Options

  /** An error is known by its text; a slot of the list may hold none. */
  type Errors = seq<Option<string>>

  datatype Snapshot<T> = Snapshot(errs: Errors, vals: seq<T>)

  /** Where the goroutine is. */
  datatype Stage = Locking | Calling | Waiting | Stopped

  datatype State<T> = State(
    waitIdle: bool,
    vals: seq<T>,
    valIDs: seq<nat>,
    resErr: Errors,
    idle: bool,
    emittedOnce: bool,
    pendingEmit: bool,
    generation: nat,
    stage: Stage,
    waitGeneration: nat,          // the broadcast after this one wakes the goroutine
    emitted: seq<Snapshot<T>>)    // what the callback was given

  datatype Action<T> =
    | AddValue(id: nat, val: T)          // of the right type, and passed by the filter
    | FilterFailed(err: string)
    | RemoveValue(id: nat)
    | Dispose
    | IdleReport(isIdle: bool, errs: Errors)
    | RoutineLock
    | CallbackReturns(ok: bool)
    | RoutineWakes
    | ContextDone

  const DISPOSED := "directive disposed"

  function Start<T>(waitIdle: bool): State<T> {
    State(waitIdle, [], [], [], false, false, false, 0, Locking, 0, [])
  }

  function SwapRemove<A>(s: seq<A>, i: nat): seq<A>
    requires i < |s|
  {
    s[i := s[|s| - 1]][..|s| - 1]
  }

  function IndexOf(ids: seq<nat>, id: nat): (i: nat)
    ensures i <= |ids| && (i < |ids| <==> id in ids) && (i < |ids| ==> ids[i] == id)
    ensures forall j :: 0 <= j < i ==> ids[j] != id
  {
    if ids == [] || ids[0] == id then 0 else 1 + IndexOf(ids[1..], id)
  }

  function ErrorsEqual(a: Errors, b: Errors): bool {
    a == b
  }

  function Signal<T>(s: State<T>): State<T> {
    s.(pendingEmit := true, generation := s.generation + 1)
  }

  function ScheduleEmitIfReady<T>(s: State<T>): State<T> {
    if !s.waitIdle || s.emittedOnce then Signal(s) else s
  }

  function SetFirstError<T>(s: State<T>, err: string): State<T> {
    if s.resErr == [] then Signal(s.(resErr := [Some(err)])) else s
  }

  function Remove<T>(s: State<T>, id: nat): State<T>
    requires |s.vals| == |s.valIDs|
  {
    var i := IndexOf(s.valIDs, id);
    if i == |s.valIDs| then s
    else ScheduleEmitIfReady(s.(valIDs := SwapRemove(s.valIDs, i), vals := SwapRemove(s.vals, i)))
  }

  function ReportIdle<T>(s: State<T>, isIdle: bool, errs: Errors): State<T> {
    var s1 := s.(idle := isIdle);
    if !ErrorsEqual(s.resErr, errs) then Signal(s1.(resErr := errs))
    else if !s.idle && isIdle && !s.emittedOnce then Signal(s1)
    else s1
  }

  function TakeSnapshot<T>(s: State<T>): State<T> {
    var s1 := s.(pendingEmit := false, waitGeneration := s.generation);
    if s.pendingEmit then
      s1.(emittedOnce := true, stage := Calling,
          emitted := s.emitted + [Snapshot(s.resErr, if s.resErr == [] then s.vals else [])])
    else s1.(stage := Waiting)
  }

  /** The actions of the goroutine need it to stand there; the handlers run at any time. */
  predicate Enabled<T>(s: State<T>, a: Action<T>) {
    match a
    case RoutineLock => s.stage == Locking
    case CallbackReturns(_) => s.stage == Calling
    case RoutineWakes => s.stage == Waiting && s.generation > s.waitGeneration
    case ContextDone => s.stage == Waiting
    case _ => true
  }

  function Step<T>(s: State<T>, a: Action<T>): (r: State<T>)
    requires |s.vals| == |s.valIDs|
    ensures |r.vals| == |r.valIDs|
  {
    match a
    case AddValue(id, val) => ScheduleEmitIfReady(s.(vals := s.vals + [val], valIDs := s.valIDs + [id]))
    case FilterFailed(err) => SetFirstError(s, err)
    case RemoveValue(id) => Remove(s, id)
    case Dispose => SetFirstError(s, DISPOSED)
    case IdleReport(isIdle, errs) => ReportIdle(s, isIdle, errs)
    case RoutineLock => TakeSnapshot(s)
    case CallbackReturns(ok) => s.(stage := if ok then Waiting else Stopped)
    case RoutineWakes => s.(stage := Locking)
    case ContextDone => s.(stage := Stopped)
  }

  // ---------- what the directive has, and what has been reported ----------

  /** The directive's own story of the run. */
  datatype History<T> = History(live: map<nat, T>, used: set<nat>, sawIdle: bool, errorChanged: bool)

  function Record<T>(h: History<T>, s: State<T>, a: Action<T>): History<T> {
    match a
    case AddValue(id, val) => h.(live := h.live[id := val], used := h.used + {id})
    case RemoveValue(id) => h.(live := h.live - {id})
    case FilterFailed(_) => h.(errorChanged := true)
    case Dispose => h.(errorChanged := true)
    case IdleReport(isIdle, errs) =>
      h.(sawIdle := h.sawIdle || isIdle, errorChanged := h.errorChanged || s.resErr != errs)
    case _ => h
  }

  /** Value IDs are never used twice. */
  predicate Possible<T>(h: History<T>, s: State<T>, a: Action<T>) {
    Enabled(s, a) && (a.AddValue? ==> a.id !in h.used)
  }

  predicate Distinct(ids: seq<nat>) {
    forall i, j :: 0 <= i < j < |ids| ==> ids[i] != ids[j]
  }

  /** The collected values are just the live ones. */
  ghost predicate Collects<T(!new)>(s: State<T>, live: map<nat, T>) {
    && |s.vals| == |s.valIDs| && Distinct(s.valIDs)
    && (forall i :: 0 <= i < |s.valIDs| ==> s.valIDs[i] in live && live[s.valIDs[i]] == s.vals[i])
    && (forall id :: id in live ==> id in s.valIDs)
  }

  /** What the callback saw last is what there is now. */
  predicate LastIsCurrent<T(==)>(s: State<T>) {
    s.emitted != [] && s.emitted[|s.emitted| - 1] == Snapshot(s.resErr, if s.resErr == [] then s.vals else [])
  }

  ghost predicate Invariant<T(!new)>(s: State<T>, h: History<T>) {
    && Collects(s, h.live) && h.live.Keys <= h.used && Prompt(s, h)
  }

  /** What is pending will be emitted, and what was emitted is current. */
  predicate Prompt<T(==)>(s: State<T>, h: History<T>) {
    // something emitted and nothing pending: the last snapshot is the present state
    && (s.emittedOnce && !s.pendingEmit ==> LastIsCurrent(s))
    // a pending emit is never lost: the goroutine is awake, or its channel is signalled
    && (s.pendingEmit && s.stage != Locking ==> s.generation > s.waitGeneration)
    // with waitIdle, nothing is emitted before an idle report or a change of the errors
    && (s.waitIdle && (s.emittedOnce || s.pendingEmit) ==> h.sawIdle || h.errorChanged)
    // an idle directive gets its first emit, and without waitIdle so does the first value
    && (!s.emittedOnce && !s.pendingEmit ==> !s.idle && s.resErr == [] && (s.waitIdle || h.used == {}))
    && (s.emittedOnce <==> s.emitted != [])
    && s.waitGeneration <= s.generation
  }

  lemma StartHolds<T(!new)>(waitIdle: bool)
    ensures Invariant(Start<T>(waitIdle), History<T>.History(map[], {}, false, false))
  {
  }

  /** Where the element now at k was before the i-th of n was removed. */
  function Origin(k: nat, i: nat, n: nat): int {
    if k == i then n - 1 else k
  }

  /** The last element stands in for the one removed. */
  lemma SwapRemoveAt<A>(s: seq<A>, i: nat)
    requires i < |s|
    ensures |SwapRemove(s, i)| == |s| - 1
    ensures forall k :: 0 <= k < |s| - 1 ==> SwapRemove(s, i)[k] == s[Origin(k, i, |s|)]
  {
  }

  lemma RemoveDistinct(ids: seq<nat>, i: nat)
    requires i < |ids| && Distinct(ids)
    ensures Distinct(SwapRemove(ids, i))
    ensures forall j :: j in SwapRemove(ids, i) <==> j in ids && j != ids[i]
  {
    var out, n := SwapRemove(ids, i), |ids|;
    SwapRemoveAt(ids, i);
    forall j | j in ids && j != ids[i] ensures j in out {
      var k :| 0 <= k < n && ids[k] == j;
      assert out[if k == n - 1 then i else k] == j;
    }
  }

  lemma RemoveCollects<T(!new)>(s: State<T>, live: map<nat, T>, id: nat)
    requires Collects(s, live)
    ensures Collects(Remove(s, id), live - {id})
  {
    hide SwapRemove, Distinct;
    var i := IndexOf(s.valIDs, id);
    if i < |s.valIDs| {
      SwapRemoveAt(s.valIDs, i);
      SwapRemoveAt(s.vals, i);
      RemoveDistinct(s.valIDs, i);
      var ids, vals := SwapRemove(s.valIDs, i), SwapRemove(s.vals, i);
      forall k | 0 <= k < |ids| ensures ids[k] in live - {id} && live[ids[k]] == vals[k] {
        assert ids[k] in ids;
        assert s.valIDs[Origin(k, i, |s.valIDs|)] in live;
      }
    }
  }

  lemma AddCollects<T(!new)>(s: State<T>, live: map<nat, T>, id: nat, val: T)
    requires Collects(s, live) && id !in live
    ensures Collects(ScheduleEmitIfReady(s.(vals := s.vals + [val], valIDs := s.valIDs + [id])), live[id := val])
  {
    var ids := s.valIDs + [id];
    forall j | j in live[id := val] ensures j in ids {
      if j == id { assert ids[|s.valIDs|] == id; }
    }
  }

  lemma StepCollects<T(!new)>(s: State<T>, h: History<T>, a: Action<T>)
    requires Collects(s, h.live) && h.live.Keys <= h.used && Possible(h, s, a)
    ensures Collects(Step(s, a), Record(h, s, a).live) && Record(h, s, a).live.Keys <= Record(h, s, a).used
  {
    match a
    case AddValue(id, val) => AddCollects(s, h.live, id, val);
    case RemoveValue(id) => RemoveCollects(s, h.live, id);
    case _ => ValuesStay(s, h, a); hide Step, Record;
  }

  /** No other step touches the values. */
  lemma ValuesStay<T>(s: State<T>, h: History<T>, a: Action<T>)
    requires |s.vals| == |s.valIDs| && !a.AddValue? && !a.RemoveValue?
    ensures Step(s, a).vals == s.vals && Step(s, a).valIDs == s.valIDs
    ensures Record(h, s, a).live == h.live && Record(h, s, a).used == h.used
  {
  }

  /** Every step of the handlers and of the goroutine, in any order, keeps the invariant. */
  lemma StepHolds<T(!new)>(s: State<T>, h: History<T>, a: Action<T>)
    requires Invariant(s, h) && Possible(h, s, a)
    ensures Invariant(Step(s, a), Record(h, s, a))
  {
    hide Collects, Prompt, Step, Record;
    assert |s.vals| == |s.valIDs| by { SameSize(s, h.live); }
    StepCollects(s, h, a);
    StepPrompt(s, h, a);
  }

  lemma StepPrompt<T>(s: State<T>, h: History<T>, a: Action<T>)
    requires |s.vals| == |s.valIDs| && Prompt(s, h) && Possible(h, s, a)
    ensures Prompt(Step(s, a), Record(h, s, a))
  {
    hide Prompt, Step, Record;
    if a.AddValue? || a.RemoveValue? {
      ValuePrompt(s, h, a);
    } else if a.FilterFailed? || a.Dispose? || a.IdleReport? {
      ReportPrompt(s, h, a);
    } else {
      RoutinePrompt(s, h, a);
    }
  }

  lemma ValuePrompt<T>(s: State<T>, h: History<T>, a: Action<T>)
    requires |s.vals| == |s.valIDs| && Prompt(s, h) && (a.AddValue? || a.RemoveValue?)
    ensures Prompt(Step(s, a), Record(h, s, a))
  {
    hide SwapRemove;
  }

  lemma ReportPrompt<T>(s: State<T>, h: History<T>, a: Action<T>)
    requires |s.vals| == |s.valIDs| && Prompt(s, h) && (a.FilterFailed? || a.Dispose? || a.IdleReport?)
    ensures Prompt(Step(s, a), Record(h, s, a))
  {
  }

  lemma RoutinePrompt<T>(s: State<T>, h: History<T>, a: Action<T>)
    requires |s.vals| == |s.valIDs| && Prompt(s, h) && Enabled(s, a)
    requires a.RoutineLock? || a.CallbackReturns? || a.RoutineWakes? || a.ContextDone?
    ensures Prompt(Step(s, a), Record(h, s, a))
  {
  }

  lemma SameSize<T(!new)>(s: State<T>, live: map<nat, T>)
    requires Collects(s, live)
    ensures |s.vals| == |s.valIDs|
  {
  }

  predicate PossibleRun<T>(h: History<T>, s: State<T>, actions: seq<Action<T>>)
    requires |s.vals| == |s.valIDs|
    decreases |actions|
  {
    actions == [] || (
      && Possible(h, s, actions[0])
      && PossibleRun(Record(h, s, actions[0]), Step(s, actions[0]), actions[1..]))
  }

  function RunAll<T>(s: State<T>, actions: seq<Action<T>>): State<T>
    requires |s.vals| == |s.valIDs|
    decreases |actions|
  {
    if actions == [] then s else RunAll(Step(s, actions[0]), actions[1..])
  }

  function RecordAll<T>(h: History<T>, s: State<T>, actions: seq<Action<T>>): History<T>
    requires |s.vals| == |s.valIDs|
    decreases |actions|
  {
    if actions == [] then h
    else RecordAll(Record(h, s, actions[0]), Step(s, actions[0]), actions[1..])
  }

  /** Over all interleavings: the invariant holds after every run. */
  lemma {:induction false} EveryRunHolds<T(!new)>(s: State<T>, h: History<T>, actions: seq<Action<T>>)
    requires Invariant(s, h) && PossibleRun(h, s, actions)
    ensures Invariant(RunAll(s, actions), RecordAll(h, s, actions))
    decreases |actions|
  {
    if actions != [] {
      StepHolds(s, h, actions[0]);
      EveryRunHolds(Step(s, actions[0]), Record(h, s, actions[0]), actions[1..]);
    }
  }

  /** So it does from the start of every watcher. */
  lemma EveryWatcherHolds<T(!new)>(waitIdle: bool, actions: seq<Action<T>>)
    ensures var s, h := Start<T>(waitIdle), History<T>.History(map[], {}, false, false);
      PossibleRun(h, s, actions) ==> Invariant(RunAll(s, actions), RecordAll(h, s, actions))
  {
    var s, h := Start<T>(waitIdle), History<T>.History(map[], {}, false, false);
    StartHolds<T>(waitIdle);
    if PossibleRun(h, s, actions) { EveryRunHolds(s, h, actions); }
  }

  /** A pending emit reaches the callback as soon as the goroutine takes its next two steps. */
  lemma PendingIsDelivered<T(!new)>(s: State<T>, h: History<T>)
    requires Invariant(s, h) && s.pendingEmit && (s.stage == Waiting || s.stage == Locking)
    ensures s.stage == Waiting ==> Enabled(s, RoutineWakes)
    ensures var awake := if s.stage == Waiting then Step(s, RoutineWakes) else s;
      && Enabled(awake, RoutineLock)
      && var after := Step(awake, RoutineLock);
         !after.pendingEmit && LastIsCurrent(after) && |after.emitted| == |s.emitted| + 1
  {
  }

  // ---------- the handlers as they run ----------

  /** Whether two lists of errors differ, slot by slot. */
  method CompareErrors(a: Errors, b: Errors) returns (equal: bool)
    ensures equal == ErrorsEqual(a, b)
  {
    if |a| != |b| {
      return false;
    }
    var i := 0;
    while i < |a|
      invariant i <= |a| && a[..i] == b[..i]
    {
      if a[i].None? != b[i].None? {
        return false;
      }
      if a[i].Some? && b[i].Some? && a[i].value != b[i].value {
        return false;
      }
      assert a[..i + 1] == a[..i] + [a[i]] && b[..i + 1] == b[..i] + [b[i]];
      i := i + 1;
    }
    return true;
  }

  /** The variables that the handlers and the goroutine share; every method is one lock region. */
  class Watch<T(!new)> {
    const waitIdle: bool
    var vals: seq<T>
    var valIDs: seq<nat>
    var resErr: Errors
    var idle: bool
    var emittedOnce: bool
    var pendingEmit: bool
    var generation: nat
    var stage: Stage
    var waitGeneration: nat
    ghost var emitted: seq<Snapshot<T>>

    constructor (waitIdle: bool)
      ensures View() == Start(waitIdle)
    {
      this.waitIdle := waitIdle;
      vals, valIDs, resErr, idle, emittedOnce, pendingEmit := [], [], [], false, false, false;
      generation, stage, waitGeneration, emitted := 0, Locking, 0, [];
    }

    ghost function View(): State<T>
      reads this
    {
      State(waitIdle, vals, valIDs, resErr, idle, emittedOnce, pendingEmit, generation, stage, waitGeneration, emitted)
    }

    method SetPending()
      modifies this`pendingEmit, this`generation
      ensures View() == Signal(old(View()))
    {
      pendingEmit := true;
      generation := generation + 1;
    }

    method Schedule()
      modifies this`pendingEmit, this`generation
      ensures View() == ScheduleEmitIfReady(old(View()))
    {
      if !waitIdle || emittedOnce {
        SetPending();
      }
    }

    method OnValue(id: nat, val: T)
      requires |vals| == |valIDs|
      modifies this
      ensures View() == Step(old(View()), AddValue(id, val))
    {
      vals := vals + [val];
      valIDs := valIDs + [id];
      Schedule();
    }

    method OnError(err: string)
      modifies this
      ensures View() == SetFirstError(old(View()), err)
    {
      if |resErr| == 0 {
        resErr := [Some(err)];
        SetPending();
      }
    }

    method OnRemoved(id: nat)
      requires |vals| == |valIDs|
      modifies this
      ensures View() == Step(old(View()), RemoveValue(id))
    {
      var i := 0;
      while i < |valIDs|
        invariant i <= |valIDs| && View() == old(View())
        invariant forall j :: 0 <= j < i ==> valIDs[j] != id
      {
        if valIDs[i] == id {
          var last := |valIDs| - 1;
          valIDs := valIDs[i := valIDs[last]];
          valIDs := valIDs[..last];
          vals := vals[i := vals[last]];
          vals := vals[..last];
          Schedule();
          return;
        }
        i := i + 1;
      }
    }

    method OnIdle(isIdle: bool, errs: Errors)
      requires |vals| == |valIDs|
      modifies this
      ensures View() == Step(old(View()), IdleReport(isIdle, errs))
    {
      var wasIdle := idle;
      idle := isIdle;
      var equal := CompareErrors(resErr, errs);
      if !equal {
        resErr := errs;
        SetPending();
        return;
      }
      if !wasIdle && idle && !emittedOnce {
        SetPending();
      }
    }

    /** The goroutine's lock region: what to emit, if anything. */
    method Collect() returns (shouldEmit: bool, errs: Errors, current: seq<T>)
      requires stage == Locking && |vals| == |valIDs|
      modifies this
      ensures View() == Step(old(View()), RoutineLock) && shouldEmit == old(pendingEmit)
      ensures shouldEmit ==> emitted == old(emitted) + [Snapshot(errs, current)]
    {
      errs, current := resErr, [];
      shouldEmit := pendingEmit;
      pendingEmit := false;
      waitGeneration := generation;
      stage := Waiting;
      if shouldEmit {
        emittedOnce := true;
        stage := Calling;
        if |errs| == 0 {
          current := vals;
        }
        emitted := emitted + [Snapshot(errs, current)];
      }
    }
  }
}
