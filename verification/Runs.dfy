/** Runs of a labelled transition system, and the induction that carries an
    invariant from the first state of a run to all the others. */
module Runs {

  ghost predicate IsRun<S(!new), E(!new)>(next: (S, E, S) -> bool, states: seq<S>, events: seq<E>) {
    && |states| == |events| + 1
    && forall i :: 0 <= i < |events| ==> next(states[i], events[i], states[i + 1])
  }

  ghost predicate Inductive<S(!new), E(!new)>(inv: S -> bool, next: (S, E, S) -> bool) {
    forall s, e, t :: inv(s) && next(s, e, t) ==> inv(t)
  }

  lemma {:induction false} InvariantOnRun<S(!new), E(!new)>(
      inv: S -> bool, next: (S, E, S) -> bool, states: seq<S>, events: seq<E>, k: nat)
    requires IsRun(next, states, events)
    requires Inductive(inv, next)
    requires inv(states[0])
    requires k < |states|
    ensures inv(states[k])
  {
    if k > 0 {
      InvariantOnRun(inv, next, states, events, k - 1);
      assert next(states[k - 1], events[k - 1], states[k - 1 + 1]);
    }
  }

  /** One more step makes a longer run. */
  lemma Extend<S(!new), E(!new)>(next: (S, E, S) -> bool, states: seq<S>, events: seq<E>, s: S, e: E, t: S)
    requires IsRun(next, states, events) && states[|events|] == s
    requires next(s, e, t)
    ensures IsRun(next, states + [t], events + [e])
  {
  }
}
