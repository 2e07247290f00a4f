/** Why a background republish never supersedes a live transition. Handlers
    stamp and publish before they persist; the reconciler reads the row first
    and stamps later, and only if the order has been quiet long enough. One
    order, on a clock in whole seconds that never goes back. */
module Quiescence {
  import opened Orders
  import opened Registry
  import opened Runs

  /** `gap`: longest time from a handler's stamp to its write (or its giving
      up); `delay`: longest time from the reconciler's read to its stamp. */
  datatype Timing = Timing(gap: nat, delay: nat, quiet: nat)

  datatype Transition = Transition(stampedAt: nat, stamp: nat, resolvedAt: Option<nat>)

  /** A reconciler publication: its stamp, and the transitions that were
      resolved when it read the row. */
  datatype Republish = Republish(stamp: nat, seen: set<nat>)

  datatype State = State(
    timing: Timing,
    now: nat,
    last: Option<nat>,
    transitions: map<nat, Transition>,
    reading: Option<(nat, set<nat>)>,
    republished: seq<Republish>)

  datatype Event =
    | Tick
    | Announce(t: nat, candidate: nat)  // a handler stamps its transition
    | Resolve(t: nat)                   // ... and persists it, or gives it up
    | Read                              // the reconciler loads the row
    | Abandon                           // ... and stops before stamping
    | Restamp                           // ... or stamps and publishes it
    | OtherStamp(effective: nat)        // a stamp of another order, which may prune

  function Resolved(s: State): set<nat> {
    set t | t in s.transitions && s.transitions[t].resolvedAt.Some?
  }

  ghost predicate Next(s: State, e: Event, t: State) {
    var timing := s.timing;
    match e
    case Tick =>
      && (forall x :: x in s.transitions && s.transitions[x].resolvedAt.None? ==>
            s.now < s.transitions[x].stampedAt + timing.gap)
      && (s.reading.Some? ==> s.now < s.reading.value.0 + timing.delay)
      && t == s.(now := s.now + 1)
    case Announce(x, candidate) =>
      && x !in s.transitions && s.now <= candidate <= s.now + 1
      && var stamp := NextStamp(s.last, candidate);
         t == s.(last := Some(stamp), transitions := s.transitions[x := Transition(s.now, stamp, None)])
    case Resolve(x) =>
      && x in s.transitions && s.transitions[x].resolvedAt.None?
      && t == s.(transitions := s.transitions[x := s.transitions[x].(resolvedAt := Some(s.now))])
    case Read =>
      s.reading.None? && t == s.(reading := Some((s.now, Resolved(s))))
    case Abandon =>
      s.reading.Some? && t == s.(reading := None)
    case Restamp =>
      && s.reading.Some? && Quiet(s.last, s.now, timing.quiet)
      && var stamp := NextStamp(s.last, s.now);
         t == s.(last := Some(stamp), reading := None,
                 republished := s.republished + [Republish(stamp, s.reading.value.1)])
    case OtherStamp(effective) =>
      && effective + timing.quiet <= s.now + MAX_AGE_SECS
      && (t == s || (s.last.Some? && s.last.value + MAX_AGE_SECS <= effective && t == s.(last := None)))
  }

  ghost predicate Blank(s: State) {
    s.last == None && s.transitions == map[] && s.reading == None && s.republished == []
  }

  /** The premise: a handler's gap and the reconciler's delay together fit
      inside the quiet window. */
  predicate WindowFits(timing: Timing) {
    timing.gap + timing.delay < timing.quiet
  }

  ghost predicate Initial(s: State) {
    WindowFits(s.timing) && Blank(s)
  }

  /** The registry still holds every stamp that is not yet out of the quiet
      window. */
  ghost predicate OnRecord(s: State, stamp: nat) {
    if s.last.Some? then stamp <= s.last.value else stamp + s.timing.quiet <= s.now
  }

  ghost predicate OnTime(s: State, tr: Transition) {
    && tr.stampedAt <= s.now && tr.stampedAt <= tr.stamp
    && (tr.resolvedAt.None? ==> s.now <= tr.stampedAt + s.timing.gap)
    && OnRecord(s, tr.stamp)
  }

  /** Whatever was announced more than `gap` before a read was resolved by
      then. */
  ghost predicate Inv(s: State) {
    && WindowFits(s.timing)
    && (forall x :: x in s.transitions ==> OnTime(s, s.transitions[x]))
    && (forall r :: r in s.republished ==> OnRecord(s, r.stamp))
    && (s.reading.Some? ==>
          && s.reading.value.0 <= s.now <= s.reading.value.0 + s.timing.delay
          && forall x :: x in s.transitions && s.transitions[x].stampedAt + s.timing.gap < s.reading.value.0 ==>
               x in s.reading.value.1)
  }

  lemma HandlerKeepsInv(s: State, e: Event, t: State)
    requires Inv(s) && Next(s, e, t) && (e.Announce? || e.Resolve?)
    ensures Inv(t)
  {
    assert forall x :: x in t.transitions && x in s.transitions && e != Resolve(x) ==>
      t.transitions[x] == s.transitions[x];
  }

  lemma OtherStepKeepsInv(s: State, e: Event, t: State)
    requires Inv(s) && Next(s, e, t) && !(e.Announce? || e.Resolve?)
    ensures Inv(t)
  {
    assert t.transitions == s.transitions;
  }

  lemma StepKeepsInv(s: State, e: Event, t: State)
    requires Inv(s) && Next(s, e, t)
    ensures Inv(t)
  {
    if e.Announce? || e.Resolve? { HandlerKeepsInv(s, e, t); } else { OtherStepKeepsInv(s, e, t); }
  }

  lemma RunKeepsInv(states: seq<State>, events: seq<Event>, k: nat)
    requires IsRun(Next, states, events) && Initial(states[0])
    requires k < |states|
    ensures Inv(states[k])
  {
    forall s, e, t | Inv(s) && Next(s, e, t) ensures Inv(t) {
      StepKeepsInv(s, e, t);
    }
    InvariantOnRun(Inv, Next, states, events, k);
  }

  /** When the reconciler stamps, every transition announced so far had been
      resolved when the row was read: a pre-transition row is never given a
      newer stamp than its transition. */
  lemma RepublishSeesEveryTransition(states: seq<State>, events: seq<Event>, k: nat)
    requires IsRun(Next, states, events) && Initial(states[0])
    requires k < |events| && events[k] == Restamp
    ensures states[k].reading.Some? && states[k].transitions.Keys <= states[k].reading.value.1
  {
    RunKeepsInv(states, events, k);
    assert Next(states[k], events[k], states[k + 1]);
    var s := states[k];
    forall x | x in s.transitions ensures x in s.reading.value.1 {
      assert OnTime(s, s.transitions[x]);
    }
  }

  /** A transition announced after a republish gets a strictly larger stamp. */
  lemma LaterTransitionOutorders(states: seq<State>, events: seq<Event>, k: nat, r: Republish)
    requires IsRun(Next, states, events) && Initial(states[0])
    requires k < |events| && events[k].Announce?
    requires r in states[k].republished
    ensures states[k + 1].last.Some? && r.stamp < states[k + 1].last.value
  {
    RunKeepsInv(states, events, k);
    assert Next(states[k], events[k], states[k + 1]);
    assert OnRecord(states[k], r.stamp);
  }

  // ---- The window is exact ----

  /** Nothing has to happen before `until`. */
  ghost predicate MayWait(s: State, until: nat) {
    && (forall x :: x in s.transitions && s.transitions[x].resolvedAt.None? ==>
         until <= s.transitions[x].stampedAt + s.timing.gap)
    && (s.reading.Some? ==> until <= s.reading.value.0 + s.timing.delay)
  }

  /** The run goes on by `n` ticks that nothing forbids. */
  lemma {:induction false} LetTick(states: seq<State>, events: seq<Event>, s: State, n: nat)
      returns (longer: seq<State>, more: seq<Event>)
    requires IsRun(Next, states, events) && states[|events|] == s
    requires MayWait(s, s.now + n)
    ensures IsRun(Next, longer, more) && longer[0] == states[0]
    ensures longer[|more|] == s.(now := s.now + n)
  {
    if n == 0 {
      longer, more := states, events;
    } else {
      longer, more := LetTick(states, events, s, n - 1);
      Extend(Next, longer, more, s.(now := s.now + n - 1), Tick, s.(now := s.now + n));
      longer, more := longer + [s.(now := s.now + n)], more + [Tick];
    }
  }

  function Fresh(timing: Timing): State {
    State(timing, 0, None, map[], None, [])
  }

  /** A handler stamps at second 0 and takes its whole gap; the row is read
      just before it writes. */
  function ReadEarly(timing: Timing): State {
    State(timing, timing.gap, Some(0), map[0 := Transition(0, 0, None)], Some((timing.gap, {})), [])
  }

  lemma ReadBeforeWrite(timing: Timing) returns (states: seq<State>, events: seq<Event>)
    ensures IsRun(Next, states, events)
    ensures states[0] == Fresh(timing) && states[|events|] == ReadEarly(timing)
  {
    var announced := Fresh(timing).(last := Some(0), transitions := map[0 := Transition(0, 0, None)]);
    states, events := [Fresh(timing)], [];
    Extend(Next, states, events, Fresh(timing), Announce(0, 0), announced);
    states, events := LetTick(states + [announced], events + [Announce(0, 0)], announced, timing.gap);
    var waited := announced.(now := timing.gap);
    assert Resolved(waited) == {};
    Extend(Next, states, events, waited, Read, ReadEarly(timing));
    states, events := states + [ReadEarly(timing)], events + [Read];
  }

  /** The reconciler stamps a row that misses an announced transition, and
      stamps it newer. */
  ghost predicate Supersedes(states: seq<State>, events: seq<Event>, k: nat) {
    && IsRun(Next, states, events) && k < |events| && events[k] == Restamp
    && states[k].reading.Some? && states[k + 1].last.Some?
    && exists x :: x in states[k].transitions && x !in states[k].reading.value.1
                   && states[k].transitions[x].stamp < states[k + 1].last.value
  }

  /** If gap and delay together reach the quiet window, a row read just before
      the handler's write is republished over the handler's event. */
  lemma WideGapSupersedes(timing: Timing) returns (states: seq<State>, events: seq<Event>, k: nat)
    requires !WindowFits(timing)
    ensures Supersedes(states, events, k) && Blank(states[0]) && states[0].timing == timing
  {
    states, events := ReadBeforeWrite(timing);
    var written := ReadEarly(timing).(transitions := map[0 := Transition(0, 0, Some(timing.gap))]);
    Extend(Next, states, events, ReadEarly(timing), Resolve(0), written);
    states, events := LetTick(states + [written], events + [Resolve(0)], written, timing.delay);
    k := |events|;
    var before := written.(now := timing.gap + timing.delay);
    var stamp := NextStamp(Some(0), before.now);
    var after := before.(last := Some(stamp), reading := None, republished := [Republish(stamp, {})]);
    Extend(Next, states, events, before, Restamp, after);
    states, events := states + [after], events + [Restamp];
    assert 0 in states[k].transitions && 0 !in states[k].reading.value.1;
  }

  /** Exactly: no run lets a republish supersede a live transition, if and only
      if the handler's gap and the reconciler's delay fit inside the window. */
  lemma SafeIffWindowFits(timing: Timing)
    ensures (forall states: seq<State>, events: seq<Event>, k: nat ::
               Supersedes(states, events, k) && Blank(states[0]) ==> states[0].timing != timing)
      <==> WindowFits(timing)
  {
    if WindowFits(timing) {
      forall states: seq<State>, events: seq<Event>, k: nat | Supersedes(states, events, k) && Blank(states[0])
        ensures states[0].timing != timing
      {
        if states[0].timing == timing {
          RepublishSeesEveryTransition(states, events, k);
          assert false;
        }
      }
    } else {
      var states, events, k := WideGapSupersedes(timing);
    }
  }
}
