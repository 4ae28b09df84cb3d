/** Runs of a state machine: an event that is not enabled has no next state, and a run is a sequence
    of events that can be carried out one after the other. */
module Runs {
  import opened Orders

  function Front<E>(events: seq<E>): seq<E>
    requires events != []
  {
    events[..|events| - 1]
  }

  function Last<E>(events: seq<E>): E
    requires events != []
  {
    events[|events| - 1]
  }

  /** The state the events lead to, if they can all be carried out. */
  function Exec<S, E>(next: (S, E) -> Option<S>, st: S, events: seq<E>): Option<S> {
    if events == [] then Some(st)
    else
      var before := Exec(next, st, Front(events));
      if before.None? then None else next(before.value, Last(events))
  }

  lemma ExecSnoc<S, E>(next: (S, E) -> Option<S>, st: S, events: seq<E>, e: E)
    requires Exec(next, st, events).Some?
    ensures Exec(next, st, events + [e]) == next(Exec(next, st, events).value, e)
  {
  }

  lemma {:induction false} ExecConcat<S, E>(next: (S, E) -> Option<S>, st: S, first: seq<E>, second: seq<E>)
    requires Exec(next, st, first).Some?
    ensures Exec(next, st, first + second) == Exec(next, Exec(next, st, first).value, second)
    decreases |second|
  {
    if second == [] {
      assert first + second == first;
    } else {
      ExecConcat(next, st, first, Front(second));
      assert Front(first + second) == first + Front(second);
    }
  }

  /** A run that follows a chain of states. */
  lemma {:induction false} Chain<S, E>(next: (S, E) -> Option<S>, run: seq<E>, states: seq<S>)
    requires |states| == |run| + 1
    requires forall i :: 0 <= i < |run| ==> next(states[i], run[i]) == Some(states[i + 1])
    ensures Exec(next, states[0], run) == Some(states[|run|])
  {
    if run != [] {
      Chain(next, Front(run), states[..|run|]);
    }
  }
}
