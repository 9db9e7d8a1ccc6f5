/**
 The watcher that runs a transform routine for each value of a directive and an effect for what
 it yields. Each effect may return a release function, here a token; the steps of the routines
 and of the removals, cut at the lock, interleave in any order.
 */
module TransformEffect {
  import opened Options

  type Token = nat

  /** A run of a value's routine. A run that fails may be followed by another one. */
  datatype Stage =
    | Transforming
    | Transformed               // about to look whether the context is cancelled
    | Ready                     // it was not; the effect is next
    | Holding(token: Token)     // the effect returned a release function
    | AtLock(token: Token)      // the context was found alive again
    | Releasing(token: Token)   // about to call the release function itself
    | Succeeded
    | Failed

  /** The removal of a value, after its lock region. */
  datatype Removal = Pending(token: Token) | Done

  datatype State = State(
    added: set<nat>,                 // every value ever added; IDs are not used twice
    vals: set<nat>,                  // vals: the values not yet removed
    valRels: set<nat>,               // the removal functions kept by ExecWatchEffect
    rels: map<nat, Token>,           // rels: the release functions of finished routines
    routines: map<nat, Stage>,
    removals: map<nat, Removal>,
    owner: map<Token, nat>,          // the value each token was made for
    released: map<Token, nat>)       // how often each token was called

  const START := State({}, {}, {}, map[], map[], map[], map[], map[])

  datatype Action =
    | Add(id: nat)
    | TransformReturns(id: nat, ok: bool, failed: bool)
    | CheckBefore(id: nat, cancelled: bool)
    | Effect(id: nat, token: Option<Token>)
    | CheckAfter(id: nat, cancelled: bool)
    | Store(id: nat)
    | Release(id: nat)
    | Restart(id: nat)
    | Remove(id: nat)                // the handler of a removal, or a turn of the one of disposal
    | RemovalReleases(id: nat)

  predicate AtStage(s: State, id: nat, stage: Stage) {
    id in s.routines && s.routines[id] == stage
  }

  /**
   Whether a routine finds its context cancelled is open at every check, also after the removal
   of its value, and a failed one may be started again at any time.
   */
  predicate Enabled(s: State, a: Action) {
    match a
    case Add(id) => id !in s.added
    case TransformReturns(id, ok, failed) => AtStage(s, id, Transforming)
    case CheckBefore(id, cancelled) => AtStage(s, id, Transformed)
    case Effect(id, token) => AtStage(s, id, Ready) && (token.Some? ==> token.value !in s.owner)
    case CheckAfter(id, cancelled) => id in s.routines && s.routines[id].Holding?
    case Store(id) => id in s.routines && s.routines[id].AtLock?
    case Release(id) => id in s.routines && s.routines[id].Releasing?
    case Restart(id) => AtStage(s, id, Failed)
    case Remove(id) => id in s.valRels
    case RemovalReleases(id) => id in s.removals && s.removals[id].Pending?
  }

  function Called(s: State, token: Token): State {
    s.(released := s.released[token := 1 + if token in s.released then s.released[token] else 0])
  }

  function MoveTo(s: State, id: nat, stage: Stage): State {
    s.(routines := s.routines[id := stage])
  }

  function Step(s: State, a: Action): State
    requires Enabled(s, a)
  {
    match a
    case Add(id) =>
      s.(added := s.added + {id}, vals := s.vals + {id}, valRels := s.valRels + {id},
         routines := s.routines[id := Transforming])
    case TransformReturns(id, ok, failed) =>
      MoveTo(s, id, if failed then Failed else if ok then Transformed else Succeeded)
    case CheckBefore(id, cancelled) => MoveTo(s, id, if cancelled then Failed else Ready)
    case Effect(id, token) =>
      (match token
       case None => MoveTo(s, id, Succeeded)
       case Some(t) => MoveTo(s, id, Holding(t)).(owner := s.owner[t := id]))
    case CheckAfter(id, cancelled) =>
      var t := s.routines[id].token;
      if cancelled then Called(MoveTo(s, id, Failed), t) else MoveTo(s, id, AtLock(t))
    case Store(id) =>
      var t := s.routines[id].token;
      if id in s.vals then MoveTo(s, id, Succeeded).(rels := s.rels[id := t])
      else MoveTo(s, id, Releasing(t))
    case Release(id) => Called(MoveTo(s, id, Succeeded), s.routines[id].token)
    case Restart(id) => MoveTo(s, id, Transforming)
    case Remove(id) =>
      var removal := if id in s.rels then Pending(s.rels[id]) else Done;
      s.(valRels := s.valRels - {id}, vals := s.vals - {id}, rels := s.rels - {id},
         removals := s.removals[id := removal])
    case RemovalReleases(id) => Called(s.(removals := s.removals[id := Done]), s.removals[id].token)
  }

  // ---------- where a token is ----------

  function Count(b: bool): nat {
    if b then 1 else 0
  }

  predicate HeldByRoutine(s: State, id: nat, t: Token) {
    id in s.routines && (s.routines[id] == Holding(t) || s.routines[id] == AtLock(t) || s.routines[id] == Releasing(t))
  }

  predicate Stored(s: State, id: nat, t: Token) {
    id in s.rels && s.rels[id] == t
  }

  predicate HeldByRemoval(s: State, id: nat, t: Token) {
    id in s.removals && s.removals[id] == Pending(t)
  }

  function Calls(s: State, t: Token): nat {
    if t in s.released then s.released[t] else 0
  }

  /** A token is in just one place: with the routine, in the map, with the removal, or called. */
  predicate OnePlace(s: State, t: Token)
    requires t in s.owner
  {
    var id := s.owner[t];
    Count(HeldByRoutine(s, id, t)) + Count(Stored(s, id, t)) + Count(HeldByRemoval(s, id, t)) + Calls(s, t) == 1
  }

  /** What is held is known, and held for the value it was made for. */
  predicate Owned(s: State, id: nat) {
    && (id in s.routines && (s.routines[id].Holding? || s.routines[id].AtLock? || s.routines[id].Releasing?) ==>
          s.routines[id].token in s.owner && s.owner[s.routines[id].token] == id)
    && (id in s.rels ==> s.rels[id] in s.owner && s.owner[s.rels[id]] == id)
    && (id in s.rels ==> id in s.vals && AtStage(s, id, Succeeded))
    && (id in s.removals && s.removals[id].Pending? ==>
          s.removals[id].token in s.owner && s.owner[s.removals[id].token] == id && AtStage(s, id, Succeeded))
    && (id in s.vals <==> id in s.added && id !in s.removals)
    && (id in s.valRels <==> id in s.vals)
    && (id in s.removals ==> id in s.added)
    && (id in s.routines <==> id in s.added)
  }

  ghost predicate Invariant(s: State) {
    && (forall id :: Owned(s, id))
    && (forall t :: t in s.owner ==> OnePlace(s, t))
    && (forall t :: t in s.released ==> t in s.owner)
  }

  /** Nothing that concerns the value differs. */
  predicate SameAt(s: State, s1: State, id: nat) {
    && (id in s.routines <==> id in s1.routines) && (id in s.routines ==> s.routines[id] == s1.routines[id])
    && (id in s.rels <==> id in s1.rels) && (id in s.rels ==> s.rels[id] == s1.rels[id])
    && (id in s.removals <==> id in s1.removals) && (id in s.removals ==> s.removals[id] == s1.removals[id])
    && (id in s.added <==> id in s1.added) && (id in s.vals <==> id in s1.vals)
    && (id in s.valRels <==> id in s1.valRels)
  }

  /** A step leaves the other values as they are. */
  lemma StepElsewhere(s: State, a: Action, id: nat)
    requires Enabled(s, a) && id != a.id
    ensures SameAt(s, Step(s, a), id)
  {
    match a
    case Add(_) =>
    case TransformReturns(_, _, _) =>
    case CheckBefore(_, _) =>
    case Effect(_, token) => if token.Some? {}
    case CheckAfter(_, _) =>
    case Store(_) =>
    case Release(_) =>
    case Restart(_) =>
    case Remove(_) =>
    case RemovalReleases(_) =>
  }

  /** A token stays the one of its value. */
  lemma OwnerStays(s: State, a: Action, t: Token)
    requires Enabled(s, a) && t in s.owner
    ensures t in Step(s, a).owner && Step(s, a).owner[t] == s.owner[t]
  {
  }

  lemma OtherOwned(s: State, a: Action, id: nat)
    requires Invariant(s) && Enabled(s, a) && id != a.id
    ensures Owned(Step(s, a), id)
  {
    hide Step, OnePlace;
    assert Owned(s, id);
    StepElsewhere(s, a, id);
    if id in s.routines && (s.routines[id].Holding? || s.routines[id].AtLock? || s.routines[id].Releasing?) {
      OwnerStays(s, a, s.routines[id].token);
    }
    if id in s.rels { OwnerStays(s, a, s.rels[id]); }
    if id in s.removals && s.removals[id].Pending? { OwnerStays(s, a, s.removals[id].token); }
  }

  lemma SameOwned(s: State, a: Action)
    requires Invariant(s) && Enabled(s, a)
    ensures Owned(Step(s, a), a.id)
  {
    assert Owned(s, a.id);
  }

  /** And its token is called as often. */
  lemma StepCalls(s: State, a: Action, t: Token)
    requires Owned(s, a.id) && Enabled(s, a) && t in s.owner && s.owner[t] != a.id
    ensures Calls(s, t) == Calls(Step(s, a), t)
  {
  }

  /** A token of another value than the one acted on stays where it is. */
  lemma OthersStay(s: State, a: Action, t: Token)
    requires Invariant(s) && Enabled(s, a) && t in s.owner && s.owner[t] != a.id
    ensures t in Step(s, a).owner && OnePlace(Step(s, a), t)
  {
    hide Step, Owned, Calls;
    assert Owned(s, a.id) && OnePlace(s, t);
    StepElsewhere(s, a, s.owner[t]);
    OwnerStays(s, a, t);
    StepCalls(s, a, t);
  }

  lemma OwnStays(s: State, a: Action, t: Token)
    requires t in s.owner && Owned(s, a.id) && OnePlace(s, t) && Enabled(s, a) && s.owner[t] == a.id
    ensures t in Step(s, a).owner && Step(s, a).owner[t] == a.id && OnePlace(Step(s, a), t)
  {
    OwnerStays(s, a, t);
    TokenMoves(s, a, t);
  }

  /** A token moves on from the place where it is. */
  lemma TokenMoves(s: State, a: Action, t: Token)
    requires t in s.owner && Owned(s, a.id) && OnePlace(s, t) && Enabled(s, a) && s.owner[t] == a.id
    ensures var s1, id := Step(s, a), a.id;
      Count(HeldByRoutine(s1, id, t)) + Count(Stored(s1, id, t)) + Count(HeldByRemoval(s1, id, t)) + Calls(s1, t) == 1
  {
    match a
    case Add(_) =>
    case TransformReturns(_, _, _) =>
    case CheckBefore(_, _) =>
    case Effect(_, token) => if token.Some? { assert token.value != t; }
    case CheckAfter(_, _) =>
    case Store(_) =>
    case Release(_) =>
    case Restart(_) =>
    case Remove(_) =>
    case RemovalReleases(_) =>
  }

  lemma StepHolds(s: State, a: Action)
    requires Invariant(s) && Enabled(s, a)
    ensures Invariant(Step(s, a))
  {
    hide OnePlace, Owned;
    var s1 := Step(s, a);
    forall id ensures Owned(s1, id) { if id == a.id { SameOwned(s, a); } else { OtherOwned(s, a, id); } }
    forall t | t in s1.owner ensures OnePlace(s1, t) {
      if t !in s.owner {
        NewToken(s, a, t);
      } else if s.owner[t] == a.id {
        assert Owned(s, a.id) && OnePlace(s, t);
        OwnStays(s, a, t);
      } else {
        OthersStay(s, a, t);
      }
    }
    forall t | t in s1.released ensures t in s1.owner { ReleasedIsOwned(s, a, t); }
  }

  lemma NewToken(s: State, a: Action, t: Token)
    requires Invariant(s) && Enabled(s, a) && t !in s.owner && t in Step(s, a).owner
    ensures OnePlace(Step(s, a), t)
  {
    assert Owned(s, a.id);
    assert t !in s.released;
  }

  lemma ReleasedIsOwned(s: State, a: Action, t: Token)
    requires Invariant(s) && Enabled(s, a) && t in Step(s, a).released
    ensures t in Step(s, a).owner
  {
    assert Owned(s, a.id);
  }

  // ---------- runs ----------

  predicate PossibleRun(s: State, actions: seq<Action>)
    decreases |actions|
  {
    actions == [] || (Enabled(s, actions[0]) && PossibleRun(Step(s, actions[0]), actions[1..]))
  }

  function RunAll(s: State, actions: seq<Action>): State
    requires PossibleRun(s, actions)
    decreases |actions|
  {
    if actions == [] then s else RunAll(Step(s, actions[0]), actions[1..])
  }

  lemma {:induction false} EveryRunHolds(s: State, actions: seq<Action>)
    requires Invariant(s) && PossibleRun(s, actions)
    ensures Invariant(RunAll(s, actions))
    decreases |actions|
  {
    if actions != [] {
      StepHolds(s, actions[0]);
      EveryRunHolds(Step(s, actions[0]), actions[1..]);
    }
  }

  /** The value has been removed, and neither the removal nor the routine has anything left to do. */
  predicate Settled(s: State, id: nat) {
    && id in s.removals && s.removals[id].Done?
    && (AtStage(s, id, Succeeded) || AtStage(s, id, Failed))
  }

  /**
   On every interleaving: no release function is ever called twice; and once the value it was
   made for has been removed and its routine has ended, it has been called exactly once.
   */
  lemma ReleasedExactlyOnce(actions: seq<Action>, t: Token)
    ensures PossibleRun(START, actions) ==>
      var s := RunAll(START, actions);
      && Calls(s, t) <= 1
      && (t in s.owner && Settled(s, s.owner[t]) ==> Calls(s, t) == 1)
  {
    if PossibleRun(START, actions) {
      assert Invariant(START);
      EveryRunHolds(START, actions);
      var s := RunAll(START, actions);
      if t in s.owner {
        assert OnePlace(s, t) && Owned(s, s.owner[t]);
      }
    }
  }

  // ---------- the lock regions ----------

  /** The maps under the lock. */
  class Table {
    var vals: set<nat>
    var rels: map<nat, Token>

    constructor ()
      ensures Matches(START)
    {
      vals, rels := {}, map[];
    }

    ghost predicate Matches(s: State)
      reads this
    {
      vals == s.vals && rels == s.rels
    }

    method AddValue(id: nat, ghost s: State)
      requires Matches(s) && Enabled(s, Add(id))
      modifies this
      ensures Matches(Step(s, Add(id)))
    {
      vals := vals + {id};
    }

    /** A routine leaves its release function here, unless its value is gone: then it must call it. */
    method StoreRelease(id: nat, relFn: Token, ghost s: State) returns (mustRelease: bool)
      requires Matches(s) && AtStage(s, id, AtLock(relFn))
      modifies this
      ensures Matches(Step(s, Store(id)))
      ensures mustRelease <==> AtStage(Step(s, Store(id)), id, Releasing(relFn))
    {
      mustRelease := id !in vals;
      if !mustRelease {
        rels := rels[id := relFn];
      }
    }

    /** Takes the value out, and the release function that is then to be called, if there is one. */
    method TakeRelease(id: nat, ghost s: State) returns (relFn: Option<Token>)
      requires Matches(s) && Enabled(s, Remove(id))
      modifies this
      ensures Matches(Step(s, Remove(id)))
      ensures Step(s, Remove(id)).removals[id] == match relFn { case Some(t) => Pending(t) case None => Done }
    {
      vals := vals - {id};
      relFn := None;
      if id in rels {
        relFn := Some(rels[id]);
        rels := rels - {id};
      }
    }
  }
}
