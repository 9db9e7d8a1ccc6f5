/**
 When the effects of transformed values run, and when they are released: not before there is a
 reason, on every interleaving.
 */
module EffectTimes {
  import opened Options
  import opened TransformEffect

  // ---------- not released early ----------

  /** The release function that a routine holds while it finds its context cancelled. */
  function CutBy(s: State, a: Action): set<Token>
    requires Enabled(s, a)
  {
    if a.CheckAfter? && a.cancelled then {s.routines[a.id].token} else {}
  }

  function CutAll(s: State, actions: seq<Action>): set<Token>
    requires PossibleRun(s, actions)
    decreases |actions|
  {
    if actions == [] then {} else CutBy(s, actions[0]) + CutAll(Step(s, actions[0]), actions[1..])
  }

  /** What has been called belongs to a removed value, or its routine found the context cancelled. */
  predicate TimelyToken(s: State, t: Token, cut: set<Token>) {
    Calls(s, t) > 0 ==> t in s.owner && (s.owner[t] in s.removals || t in cut)
  }

  predicate TimelyRoutine(s: State, id: nat) {
    id in s.routines && s.routines[id].Releasing? ==> id in s.removals
  }

  ghost predicate Timely(s: State, cut: set<Token>) {
    (forall t :: TimelyToken(s, t, cut)) && (forall id :: TimelyRoutine(s, id))
  }

  lemma RoutineTimely(s: State, a: Action, id: nat)
    requires Owned(s, a.id) && Enabled(s, a) && TimelyRoutine(s, id)
    ensures TimelyRoutine(Step(s, a), id)
  {
    if id != a.id { StepElsewhere(s, a, id); }
  }

  lemma TokenTimely(s: State, a: Action, t: Token, cut: set<Token>)
    requires Owned(s, a.id) && Enabled(s, a) && TimelyToken(s, t, cut) && TimelyRoutine(s, a.id)
    ensures TimelyToken(Step(s, a), t, cut + CutBy(s, a))
  {
    if t in s.owner { OwnerStays(s, a, t); }
  }

  lemma StepTimely(s: State, a: Action, cut: set<Token>)
    requires Invariant(s) && Enabled(s, a) && Timely(s, cut)
    ensures Timely(Step(s, a), cut + CutBy(s, a))
  {
    hide Step, OnePlace, Owned, TimelyToken, TimelyRoutine;
    assert Owned(s, a.id) && TimelyRoutine(s, a.id);
    forall t ensures TimelyToken(Step(s, a), t, cut + CutBy(s, a)) {
      assert TimelyToken(s, t, cut);
      TokenTimely(s, a, t, cut);
    }
    forall id ensures TimelyRoutine(Step(s, a), id) {
      assert TimelyRoutine(s, id);
      RoutineTimely(s, a, id);
    }
  }

  lemma {:induction false} RunTimely(s: State, actions: seq<Action>, cut: set<Token>)
    requires Invariant(s) && PossibleRun(s, actions) && Timely(s, cut)
    ensures Invariant(RunAll(s, actions)) && Timely(RunAll(s, actions), cut + CutAll(s, actions))
    decreases |actions|
  {
    hide Invariant, Timely, Step, Enabled, CutBy;
    if actions == [] {
      assert cut + CutAll(s, actions) == cut;
    } else {
      var a := actions[0];
      StepHolds(s, a);
      StepTimely(s, a, cut);
      RunTimely(Step(s, a), actions[1..], cut + CutBy(s, a));
      assert cut + CutBy(s, a) + CutAll(Step(s, a), actions[1..]) == cut + CutAll(s, actions);
    }
  }

  /**
   On every interleaving: a release function is called only when its value has been removed, or its
   routine found the context cancelled; and as long as neither is so, it is kept for the removal
   once the routine has succeeded.
   */
  lemma NotReleasedEarly(actions: seq<Action>, t: Token)
    requires PossibleRun(START, actions) && t in RunAll(START, actions).owner
    ensures var s := RunAll(START, actions);
      var id := s.owner[t];
      && (Calls(s, t) > 0 ==> id !in s.vals || t in CutAll(START, actions))
      && (id in s.vals && t !in CutAll(START, actions) && AtStage(s, id, Succeeded) ==> id in s.rels && s.rels[id] == t)
  {
    assert Invariant(START) && Timely(START, {});
    RunTimely(START, actions, {});
    var s := RunAll(START, actions);
    assert TimelyToken(s, t, {} + CutAll(START, actions));
    assert OnePlace(s, t) && Owned(s, s.owner[t]);
  }

  // ---------- effects only after a check ----------

  /** What the routine of a value has done, in order. */
  function RoutineOf(actions: seq<Action>, id: nat): seq<Action>
    decreases |actions|
  {
    if actions == [] then []
    else
      var n := |actions| - 1;
      var before := RoutineOf(actions[..n], id);
      if actions[n].id == id && !actions[n].Remove? && !actions[n].RemovalReleases? then before + [actions[n]]
      else before
  }

  /** A run but for its last action, and that action. */
  lemma {:induction false} RunSplit(s: State, actions: seq<Action>, a: Action)
    requires PossibleRun(s, actions + [a])
    ensures PossibleRun(s, actions) && Enabled(RunAll(s, actions), a)
    ensures RunAll(s, actions + [a]) == Step(RunAll(s, actions), a)
    decreases |actions|
  {
    hide Enabled, Step;
    if actions == [] {
      assert ([] + [a])[0] == a && ([] + [a])[1..] == [];
    } else {
      assert (actions + [a])[0] == actions[0] && (actions + [a])[1..] == actions[1..] + [a];
      RunSplit(Step(s, actions[0]), actions[1..], a);
    }
  }

  /** The end of what the routine has done says where it stands. */
  predicate Checked(s: State, done: seq<Action>, id: nat) {
    && (AtStage(s, id, Transformed) ==> done != [] && done[|done| - 1] == TransformReturns(id, true, false))
    && (AtStage(s, id, Ready) ==>
          && |done| >= 2 && done[|done| - 1] == CheckBefore(id, false)
          && done[|done| - 2] == TransformReturns(id, true, false))
  }

  lemma StepChecked(s: State, a: Action, done: seq<Action>, id: nat)
    requires Enabled(s, a) && Checked(s, done, id)
    ensures Checked(Step(s, a), if a.id == id && !a.Remove? && !a.RemovalReleases? then done + [a] else done, id)
  {
    if a.id != id { StepElsewhere(s, a, id); }
  }

  lemma NothingDone(id: nat)
    ensures RunAll(START, []) == START && RoutineOf([], id) == []
  {
  }

  lemma RoutineOn(actions: seq<Action>, id: nat)
    requires actions != []
    ensures var n := |actions| - 1;
      RoutineOf(actions, id) == if actions[n].id == id && !actions[n].Remove? && !actions[n].RemovalReleases?
                                then RoutineOf(actions[..n], id) + [actions[n]] else RoutineOf(actions[..n], id)
  {
  }

  /**
   On every interleaving: an effect runs only right behind a transform of its value that returned a
   result, and a check that found the context alive.
   */
  lemma {:induction false} EffectAfterCheck(actions: seq<Action>, id: nat)
    requires PossibleRun(START, actions)
    ensures Checked(RunAll(START, actions), RoutineOf(actions, id), id)
    ensures forall token :: Enabled(RunAll(START, actions), Effect(id, token)) ==>
      var done := RoutineOf(actions, id);
      && |done| >= 2 && done[|done| - 1] == CheckBefore(id, false)
      && done[|done| - 2] == TransformReturns(id, true, false)
    decreases |actions|
  {
    hide Step, PossibleRun, RunAll, RoutineOf;
    if actions == [] {
      NothingDone(id);
    } else {
      var n := |actions| - 1;
      RoutineOn(actions, id);
      assert actions == actions[..n] + [actions[n]];
      RunSplit(START, actions[..n], actions[n]);
      EffectAfterCheck(actions[..n], id);
      StepChecked(RunAll(START, actions[..n]), actions[n], RoutineOf(actions[..n], id), id);
    }
  }
}
