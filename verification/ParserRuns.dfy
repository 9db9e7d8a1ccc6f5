/** Runs of the parser: the events that it produces in a row. */
module ParserRuns {
  import opened Tokens
  import opened Options
  import opened Parser
  import opened ParserSafety

  /** From m the parser produces these events and then is at m1. */
  predicate Parses(m: Machine, events: seq<Event>, m1: Machine)
    decreases |events|
  {
    if events == [] then m == m1
    else
      match Step(m)
      case Produced(event, next) => event == events[0] && Parses(next, events[1..], m1)
      case _ => false
  }

  lemma {:induction false} ParsesOn(m: Machine, a: seq<Event>, m1: Machine, b: seq<Event>, m2: Machine)
    requires Parses(m, a, m1) && Parses(m1, b, m2)
    ensures Parses(m, a + b, m2)
    decreases |a|
  {
    hide Step;
    if a == [] {
      assert a + b == b;
    } else {
      assert (a + b)[1..] == a[1..] + b;
      ParsesOn(Step(m).next, a[1..], m1, b, m2);
    }
  }

  /** The outcome of a step that begins these events. */
  predicate Begins(o: Outcome, events: seq<Event>, m1: Machine) {
    o.Produced? && events != [] && o.event == events[0] && Parses(o.next, events[1..], m1)
  }

  lemma StepBegins(m: Machine, a: seq<Event>, m1: Machine, b: seq<Event>, m2: Machine)
    requires Begins(Step(m), a, m1) && Parses(m1, b, m2)
    ensures Parses(m, a + b, m2)
  {
    hide Step;
    ParsesOn(m, a, m1, b, m2);
  }

  /** The machine after a node, or after a collection whose mark is dropped. */
  function Back(m: Machine, rest: seq<Token>): Machine
    requires m.states != []
  {
    var last := |m.states| - 1;
    m.(state := m.states[last], states := m.states[..last], tokens := rest)
  }

  lemma BackPushed(m: Machine, s: ParseState, tokens: seq<Token>, rest: seq<Token>)
    ensures Back(PushState(m, s).(tokens := tokens), rest) == m.(state := s, tokens := rest)
  {
    assert (m.states + [s])[..|m.states|] == m.states;
  }

  lemma BeginsOn(o: Outcome, a: seq<Event>, m1: Machine, b: seq<Event>, m2: Machine)
    requires Begins(o, a, m1) && Begins(Step(m1), b, m2)
    ensures Begins(o, a + b, m2)
  {
    hide Step;
    ParsesOn(o.next, a[1..], m1, b, m2);
    assert (a + b)[1..] == a[1..] + b;
  }

  lemma {:induction false} ParsesAll(m: Machine, events: seq<Event>, m1: Machine)
    requires Good(m) && Parses(m, events, m1) && m1.state == AtEnd
    ensures ParseAll(m) == Run(events, Complete(m1))
    decreases |events|
  {
    hide Step, Good;
    if events == [] {
    } else {
      assert m.state != AtEnd by { EndIsStuck(m); }
      StepSound(m);
      ParsesAll(Step(m).next, events[1..], m1);
      assert events == [events[0]] + events[1..];
    }
  }

  lemma EndIsStuck(m: Machine)
    requires Step(m).Produced?
    ensures m.state != AtEnd
  {
  }

  /** Steps that lead to an error are all the events there are. */
  lemma {:induction false} ParsesToError(m: Machine, events: seq<Event>, m1: Machine, e: ParseError)
    requires Good(m) && Parses(m, events, m1) && m1.state != AtEnd && Step(m1) == Failed(e)
    ensures ParseAll(m) == Run(events, Stopped(e))
    decreases |events|
  {
    hide Step, Good;
    if events == [] {
      StepSound(m);
    } else {
      assert m.state != AtEnd by { EndIsStuck(m); }
      StepSound(m);
      ParsesToError(Step(m).next, events[1..], m1, e);
      assert events == [events[0]] + events[1..];
    }
  }

  lemma FirstEvent(m: Machine, e: Event, m1: Machine, events: seq<Event>, m2: Machine)
    requires Step(m) == Produced(e, m1) && Parses(m1, events, m2)
    ensures Parses(m, [e] + events, m2)
  {
    hide Step;
    assert ([e] + events)[1..] == events;
  }
}
