/**
 What the collecting watcher reports: which errors these are, and that nothing is reported without
 news, over every run from its start.
 */
module CollectNews {
  import opened Options
  import opened CollectWatch

  // ---------- which errors ----------

  /** Behind the last idle report; 0 if there was none. */
  function BehindReport<T>(actions: seq<Action<T>>): (k: nat)
    ensures k <= |actions| && (k > 0 ==> actions[k - 1].IdleReport?)
    decreases |actions|
  {
    var n := |actions|;
    if n == 0 || actions[n - 1].IdleReport? then n else BehindReport(actions[..n - 1])
  }

  /** The first failure of a filter, or disposal. */
  function FirstFailure<T>(actions: seq<Action<T>>): Errors
    decreases |actions|
  {
    if actions == [] then []
    else
      match actions[0]
      case FilterFailed(err) => [Some(err)]
      case Dispose => [Some(DISPOSED)]
      case _ => FirstFailure(actions[1..])
  }

  /** What was reported last, or the first failure behind it if that is empty. */
  function ErrorsOf<T>(actions: seq<Action<T>>): Errors {
    var k := BehindReport(actions);
    if k > 0 && actions[k - 1].errs != [] then actions[k - 1].errs else FirstFailure(actions[k..])
  }

  function IdleOf<T>(actions: seq<Action<T>>): bool {
    var k := BehindReport(actions);
    k > 0 && actions[k - 1].isIdle
  }

  lemma {:induction false} FailureJoin<T>(a: seq<Action<T>>, b: seq<Action<T>>)
    ensures FirstFailure(a + b) == if FirstFailure(a) != [] then FirstFailure(a) else FirstFailure(b)
    decreases |a|
  {
    if a == [] {
      assert a + b == b;
    } else {
      assert (a + b)[0] == a[0] && (a + b)[1..] == a[1..] + b;
      FailureJoin(a[1..], b);
    }
  }

  /** A run but for its last action, and that action. */
  lemma {:induction false} RunSplit<T>(s: State<T>, actions: seq<Action<T>>, a: Action<T>)
    requires |s.vals| == |s.valIDs|
    ensures |RunAll(s, actions).vals| == |RunAll(s, actions).valIDs|
    ensures RunAll(s, actions + [a]) == Step(RunAll(s, actions), a)
    decreases |actions|
  {
    hide Step;
    if actions == [] {
      assert ([] + [a])[0] == a && ([] + [a])[1..] == [];
    } else {
      assert (actions + [a])[0] == actions[0] && (actions + [a])[1..] == actions[1..] + [a];
      RunSplit(Step(s, actions[0]), actions[1..], a);
    }
  }

  /** One more action. */
  lemma ErrorsOn<T>(actions: seq<Action<T>>, a: Action<T>)
    ensures ErrorsOf(actions + [a]) ==
      if a.IdleReport? then a.errs
      else if ErrorsOf(actions) != [] then ErrorsOf(actions)
      else FirstFailure([a])
    ensures IdleOf(actions + [a]) == if a.IdleReport? then a.isIdle else IdleOf(actions)
  {
    var all, n, k := actions + [a], |actions|, BehindReport(actions);
    assert all[..n] == actions;
    if a.IdleReport? {
      assert all[n + 1..] == [];
    } else {
      assert all[k..] == actions[k..] + [a];
      FailureJoin(actions[k..], [a]);
    }
  }

  lemma StepErrors<T>(s: State<T>, a: Action<T>)
    requires |s.vals| == |s.valIDs|
    ensures Step(s, a).resErr ==
      if a.IdleReport? then a.errs else if s.resErr != [] then s.resErr else FirstFailure([a])
    ensures Step(s, a).idle == if a.IdleReport? then a.isIdle else s.idle
  {
    hide SwapRemove;
    assert [a][1..] == [];
    assert FirstFailure<T>([]) == [];
  }

  /** The watcher's errors, and whether it is idle, are what the reports and failures of the run say. */
  lemma {:induction false} ErrorsReported<T>(waitIdle: bool, actions: seq<Action<T>>)
    ensures var s := RunAll(Start<T>(waitIdle), actions); s.resErr == ErrorsOf(actions) && s.idle == IdleOf(actions)
    decreases |actions|
  {
    hide Step, ErrorsOf, IdleOf;
    if actions == [] {
      NoErrors<T>();
    } else {
      var n := |actions| - 1;
      assert actions == actions[..n] + [actions[n]];
      RunSplit(Start(waitIdle), actions[..n], actions[n]);
      ErrorsReported(waitIdle, actions[..n]);
      ErrorsOn(actions[..n], actions[n]);
      StepErrors(RunAll(Start(waitIdle), actions[..n]), actions[n]);
    }
  }

  lemma NoErrors<T>()
    ensures ErrorsOf<T>([]) == [] && !IdleOf<T>([])
  {
  }

  // ---------- nothing without news ----------

  /** The values or the errors change, or the directive is found idle before anything was emitted. */
  predicate News<T(==)>(s: State<T>, a: Action<T>)
    requires |s.vals| == |s.valIDs|
  {
    || Step(s, a).vals != s.vals
    || Step(s, a).resErr != s.resErr
    || (a.IdleReport? && a.isIdle && !s.idle && !s.emittedOnce)
  }

  function NewsIn<T(==)>(s: State<T>, actions: seq<Action<T>>): nat
    requires |s.vals| == |s.valIDs|
    decreases |actions|
  {
    if actions == [] then 0
    else (if News(s, actions[0]) then 1 else 0) + NewsIn(Step(s, actions[0]), actions[1..])
  }

  /** How many snapshots have been emitted or will be. */
  function Due<T>(s: State<T>): nat {
    |s.emitted| + if s.pendingEmit then 1 else 0
  }

  lemma StepNews<T>(s: State<T>, a: Action<T>)
    requires |s.vals| == |s.valIDs|
    ensures Due(Step(s, a)) <= Due(s) + if News(s, a) then 1 else 0
    ensures Step(s, a).emitted != s.emitted ==> a.RoutineLock?
  {
    hide SwapRemove, IndexOf;
    match a
    case AddValue(_, _) => assert |Step(s, a).vals| == |s.vals| + 1;
    case RemoveValue(id) =>
      var i := IndexOf(s.valIDs, id);
      if i < |s.valIDs| {
        SwapRemoveAt(s.vals, i);
        assert |Step(s, a).vals| == |s.vals| - 1;
      }
    case _ =>
  }

  /** The callback is not called more often than there is news. */
  lemma {:induction false} NothingWithoutNews<T>(s: State<T>, actions: seq<Action<T>>)
    requires |s.vals| == |s.valIDs|
    ensures Due(RunAll(s, actions)) <= Due(s) + NewsIn(s, actions)
    decreases |actions|
  {
    hide Step, News;
    if actions != [] {
      StepNews(s, actions[0]);
      NothingWithoutNews(Step(s, actions[0]), actions[1..]);
    }
  }
}
