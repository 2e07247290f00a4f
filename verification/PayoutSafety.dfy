/** Never two payouts that may both settle. The claim protocol of one order,
    together with LND: a payment is sent after the last touch, LND registers it
    some time later, and a claim is released as failed only once LND has ruled
    its payment out. */
module PayoutSafety {
  import opened Orders
  import opened Runs
  import Payout

  // ---- LND ----

  /** A claim's payment: handed to LND and not yet registered, in flight, paid,
      or failed for good. */
  datatype Payment = Handed(at: int) | Underway | Settled | Dead

  /** What LND says about a payment hash. */
  datatype Answer = InFlight | Succeeded | PaymentFailed | UnknownPayment | NoRecord | LookupFailed

  /** LND reports nothing that is or will be in flight. */
  predicate NothingInFlight(a: Answer) {
    a == PaymentFailed || a == UnknownPayment || a == NoRecord
  }

  /** The answers LND can give: it has no record of what it has not registered. */
  predicate TrueOf(a: Answer, p: Option<Payment>) {
    match a
    case InFlight => p == Some(Underway)
    case Succeeded => p == Some(Settled)
    case PaymentFailed => p == Some(Dead)
    case UnknownPayment | NoRecord => p == None || p.value.Handed? || p.value.Dead?
    case LookupFailed => true
  }

  // ---- The order and its payments ----

  /** `grace`: the reconciler's window; `registers`: the time within which LND
      registers or refuses what it was handed. */
  datatype Timing = Timing(grace: int, registers: int)

  /** `observed`: tickets the reconciler picked up; `ruled`: tickets whose
      holder has LND's word that the payment is out. */
  datatype State = State(
    timing: Timing,
    core: Payout.State,
    payments: map<nat, Payment>,
    observed: set<Payout.Ticket>,
    ruled: set<Payout.Ticket>)

  datatype Event =
    | Core(e: Payout.Event)
    | Register(claim: nat)
    | Refuse(claim: nat)                            // the send ends in an error
    | Resolve(claim: nat, paid: bool)
    | AskLnd(ticket: Payout.Ticket, answer: Answer)  // the reconciler's lookup
    | SeeFailed(ticket: Payout.Ticket)              // the dispatcher or its watcher sees the payment fail

  /** What each caller of the statements has made sure of. */
  ghost predicate Careful(s: State, e: Payout.Event) {
    match e
    case Clock(now) =>
      && s.core.now <= now
      && forall c :: c in s.payments && s.payments[c].Handed? ==> now < s.payments[c].at + s.timing.registers
    case Touch(ticket, send) => send ==> ticket.claim !in s.payments
    case Observe => ReconcileSelects(s.core.row, s.core.now - s.timing.grace)
    case Clear(_) => s.core.row.status != SettledHoldInvoice
    case FailClaim(ticket) => ticket in s.ruled
    case Finalize(status) => status != SettledHoldInvoice
    case _ => true
  }

  /** The claim as the row shows it. */
  function Marker(core: Payout.State): Payout.Ticket
    requires core.live.Some? && core.row.payoutHash.Some?
  {
    Payout.Ticket(core.live.value, core.row.payoutHash.value, core.row.payoutClaimedAt)
  }

  predicate Sends(s: State, e: Payout.Event) {
    e.Touch? && e.send && PayoutTouchable(s.core.row, e.ticket.hash, e.ticket.token)
  }

  ghost predicate Next(s: State, e: Event, t: State) {
    match e
    case Core(x) =>
      && Payout.Next(s.core, x, t.core) && Payout.FreshStamp(s.core, x) && Careful(s, x)
      && t == s.(core := t.core,
                 payments := if Sends(s, x) then s.payments[x.ticket.claim := Handed(s.core.now)] else s.payments,
                 observed := if x.Observe? && s.core.live.Some? && s.core.row.payoutHash.Some?
                             then s.observed + {Marker(s.core)} else s.observed)
    case Register(c) =>
      c in s.payments && s.payments[c].Handed? && t == s.(payments := s.payments[c := Underway])
    case Refuse(c) =>
      c in s.payments && s.payments[c].Handed? && t == s.(payments := s.payments[c := Dead])
    case Resolve(c, paid) =>
      && c in s.payments && s.payments[c] == Underway
      && t == s.(payments := s.payments[c := if paid then Settled else Dead])
    case AskLnd(ticket, answer) =>
      && ticket in s.observed && TrueOf(answer, Lookup(s.payments, ticket.claim))
      && t == if NothingInFlight(answer) then s.(ruled := s.ruled + {ticket}) else s
    case SeeFailed(ticket) =>
      && ticket in s.core.issued && Lookup(s.payments, ticket.claim) == Some(Dead)
      && t == s.(ruled := s.ruled + {ticket})
  }

  /** The row as a start finds it: a claim may be live and its payment in any
      state; one just handed over is not older than the claim's token. */
  ghost predicate Initial(s: State) {
    && Payout.Initial(s.core) && 0 < s.timing.grace && 0 < s.timing.registers
    && s.observed == {} && s.ruled == {}
    && (forall c :: c in s.payments ==> Some(c) == s.core.live)
    && (forall c :: c in s.payments && s.payments[c].Handed? ==> HandedInTime(s, c))
  }

  /** The payment is, or may yet be, the buyer's. */
  predicate MaySettle(s: State, claim: nat) {
    claim in s.payments && !s.payments[claim].Dead?
  }

  ghost predicate HandedInTime(s: State, c: nat)
    requires c in s.payments && s.payments[c].Handed?
  {
    && s.payments[c].at <= s.core.now < s.payments[c].at + s.timing.registers
    && (s.core.live == Some(c) ==>
          s.core.row.payoutClaimedAt.Some? && s.payments[c].at <= s.core.row.payoutClaimedAt.value)
  }

  ghost predicate Old(s: State, x: Payout.Ticket) {
    x.token.Some? ==> x.token.value + s.timing.grace <= s.core.now
  }

  /** Releasing by this ticket is safe: its payment is dead, or the ticket is
      old and fits the row only while no payment of its claim may settle. */
  ghost predicate SafelyRuled(s: State, x: Payout.Ticket) {
    || Lookup(s.payments, x.claim) == Some(Dead)
    || (&& Old(s, x)
        && (OwnsPayout(s.core.row, x.hash, x.token) && s.core.live == Some(x.claim) ==> !MaySettle(s, x.claim)))
  }

  ghost predicate Inv(s: State) {
    && 0 < s.timing.registers <= s.timing.grace
    && Payout.Conserved(s.core) && Payout.HolderOnly(s.core)
    && (forall c :: c in s.payments ==> c < s.core.claims)
    && (forall c :: c in s.payments && !s.payments[c].Dead? ==>
          Some(c) == s.core.live || s.core.row.status != SettledHoldInvoice)
    && (forall c, d :: c in s.payments && d in s.payments && !s.payments[c].Dead? && !s.payments[d].Dead? ==> c == d)
    && (forall c :: c in s.payments && s.payments[c].Handed? ==> HandedInTime(s, c))
    && (forall x :: x in s.observed ==> Old(s, x))
    && (forall x :: x in s.ruled ==> SafelyRuled(s, x))
  }

  /** The claim protocol itself keeps what it promised. */
  lemma CoreKept(s: State, e: Payout.Event, t: State)
    requires Inv(s) && Next(s, Core(e), t)
    ensures Payout.Conserved(t.core) && Payout.HolderOnly(t.core)
  {
    Payout.StepConserves(s.core, e, t.core);
    Payout.StepOwnedIff(s.core, e, t.core);
  }

  lemma ClaimKeepsInv(s: State, e: Payout.Event, t: State)
    requires Inv(s) && Next(s, Core(e), t) && e.Claim?
    ensures Inv(t)
  {
    CoreKept(s, e, t);
  }

  lemma TouchKeepsInv(s: State, e: Payout.Event, t: State)
    requires Inv(s) && Next(s, Core(e), t) && e.Touch?
    ensures Inv(t)
  {
    CoreKept(s, e, t);
  }

  lemma ReleaseKeepsInv(s: State, e: Payout.Event, t: State)
    requires Inv(s) && Next(s, Core(e), t) && (e.Clear? || e.FailClaim?)
    ensures Inv(t)
  {
    CoreKept(s, e, t);
    if e.FailClaim? {
      assert SafelyRuled(s, e.ticket);
    }
  }

  lemma OtherCoreKeepsInv(s: State, e: Payout.Event, t: State)
    requires Inv(s) && Next(s, Core(e), t) && (e.Clock? || e.Observe? || e.RecordFailure? || e.Finalize?)
    ensures Inv(t)
  {
    CoreKept(s, e, t);
  }

  lemma LndKeepsInv(s: State, e: Event, t: State)
    requires Inv(s) && Next(s, e, t) && (e.Register? || e.Refuse? || e.Resolve?)
    ensures Inv(t)
  {
  }

  /** What the grace window is for: an old ticket that still fits the row has no
      payment that LND has been handed but not registered. */
  lemma RulingKeepsInv(s: State, e: Event, t: State)
    requires Inv(s) && Next(s, e, t) && (e.AskLnd? || e.SeeFailed?)
    ensures Inv(t)
  {
  }

  lemma StepKeepsInv(s: State, e: Event, t: State)
    requires Inv(s) && Next(s, e, t)
    ensures Inv(t)
  {
    match e {
      case Core(x) =>
        if x.Claim? { ClaimKeepsInv(s, x, t); }
        else if x.Touch? { TouchKeepsInv(s, x, t); }
        else if x.Clear? || x.FailClaim? { ReleaseKeepsInv(s, x, t); }
        else { OtherCoreKeepsInv(s, x, t); }
      case AskLnd(_, _) => RulingKeepsInv(s, e, t);
      case SeeFailed(_) => RulingKeepsInv(s, e, t);
      case _ => LndKeepsInv(s, e, t);
    }
  }

  lemma InitialHolds(s: State)
    requires Initial(s) && s.timing.registers <= s.timing.grace
    ensures Inv(s)
  {
    Payout.OwnedAtStart(s.core);
  }

  /** In no state of any run are there two payments that may both settle, as
      long as LND registers what it is handed within the grace window. */
  lemma NeverTwoPayouts(states: seq<State>, events: seq<Event>, k: nat, c: nat, d: nat)
    requires IsRun(Next, states, events) && Initial(states[0])
    requires states[0].timing.registers <= states[0].timing.grace
    requires k < |states| && MaySettle(states[k], c) && MaySettle(states[k], d)
    ensures c == d
  {
    InitialHolds(states[0]);
    forall s, e, t | Inv(s) && Next(s, e, t) ensures Inv(t) {
      StepKeepsInv(s, e, t);
    }
    InvariantOnRun(Inv, Next, states, events, k);
  }

  // ---- The grace window is exact ----

  /** Two payments of one order that may both settle. */
  ghost predicate PaysTwice(states: seq<State>, events: seq<Event>, k: nat, c: nat, d: nat) {
    && IsRun(Next, states, events) && Initial(states[0])
    && k < |states| && c != d && MaySettle(states[k], c) && MaySettle(states[k], d)
  }

  /** The first dispatch of a claimable row: claim 0 at second 0, sent at once. */
  function FirstTicket(hash: PaymentHash): Payout.Ticket {
    Payout.Ticket(0, hash, Some(0))
  }

  function Start(timing: Timing, row: Order): State {
    State(timing, Payout.State(0, row, None, {}, 0, 0, {}, {}), map[], {}, {})
  }

  function FirstSent(timing: Timing, row: Order, hash: PaymentHash): State {
    State(timing, Payout.State(0, ClaimPayout(row, hash, 0), Some(0), {FirstTicket(hash)}, 1, 0, {0}, {}),
          map[0 := Handed(0)], {}, {})
  }

  lemma SendFirst(timing: Timing, row: Order, hash: PaymentHash) returns (states: seq<State>, events: seq<Event>)
    requires PayoutClaimable(row)
    ensures IsRun(Next, states, events) && states[0] == Start(timing, row)
    ensures states[|events|] == FirstSent(timing, row, hash)
  {
    var s0 := Start(timing, row);
    var s1 := FirstSent(timing, row, hash).(payments := map[]);
    s1 := s1.(core := s1.core.(sent := {}));
    states, events := [s0], [];
    Extend(Next, states, events, s0, Core(Payout.Claim(hash)), s1);
    states, events := states + [s1], events + [Core(Payout.Claim(hash))];
    var touch := Core(Payout.Touch(FirstTicket(hash), true));
    Extend(Next, states, events, s1, touch, FirstSent(timing, row, hash));
    states, events := states + [FirstSent(timing, row, hash)], events + [touch];
  }

  /** LND is slow: when the window is over the payment is handed over and not
      registered, LND has no record of it, and the reconciler lets go. */
  function LetGo(timing: Timing, row: Order, hash: PaymentHash): State {
    var x := FirstTicket(hash);
    State(timing, Payout.State(timing.grace, row.(failedPayment := true), None, {x}, 1, 1, {0}, {0}),
          map[0 := Handed(0)], {x}, {x})
  }

  lemma LetGoTooEarly(timing: Timing, row: Order, hash: PaymentHash) returns (states: seq<State>, events: seq<Event>)
    requires PayoutClaimable(row) && row.payoutClaimedAt == None
    requires 0 < timing.grace < timing.registers
    ensures IsRun(Next, states, events) && states[0] == Start(timing, row)
    ensures states[|events|] == LetGo(timing, row, hash)
  {
    states, events := SendFirst(timing, row, hash);
    var x := FirstTicket(hash);
    var s2 := FirstSent(timing, row, hash);
    var s3 := s2.(core := s2.core.(now := timing.grace));
    var s4 := s3.(observed := {x});
    var s5 := s4.(ruled := {x});
    Extend(Next, states, events, s2, Core(Payout.Clock(timing.grace)), s3);
    states, events := states + [s3], events + [Core(Payout.Clock(timing.grace))];
    assert s3.core.issued + {x} == s3.core.issued;
    Extend(Next, states, events, s3, Core(Payout.Observe), s4);
    states, events := states + [s4], events + [Core(Payout.Observe)];
    Extend(Next, states, events, s4, AskLnd(x, NoRecord), s5);
    states, events := states + [s5], events + [AskLnd(x, NoRecord)];
    Extend(Next, states, events, s5, Core(Payout.FailClaim(x)), LetGo(timing, row, hash));
    states, events := states + [LetGo(timing, row, hash)], events + [Core(Payout.FailClaim(x))];
  }

  /** Then the retry sends a second payment beside the first. */
  lemma SlowRegistrationPaysTwice(timing: Timing, row: Order, hash: PaymentHash)
      returns (states: seq<State>, events: seq<Event>)
    requires PayoutClaimable(row) && row.payoutClaimedAt == None
    requires 0 < timing.grace < timing.registers
    ensures PaysTwice(states, events, |events|, 0, 1) && states[0] == Start(timing, row)
  {
    states, events := LetGoTooEarly(timing, row, hash);
    var s6, y := LetGo(timing, row, hash), Payout.Ticket(1, hash, Some(timing.grace));
    var claimed := ClaimPayout(s6.core.row, hash, timing.grace);
    var s7 := s6.(core := s6.core.(row := claimed, live := Some(1), claims := 2, issued := {FirstTicket(hash), y}));
    var s8 := s7.(core := s7.core.(sent := {0, 1}), payments := map[0 := Handed(0), 1 := Handed(timing.grace)]);
    Extend(Next, states, events, s6, Core(Payout.Claim(hash)), s7);
    states, events := states + [s7], events + [Core(Payout.Claim(hash))];
    assert s7.core.issued + {y} == s7.core.issued;
    Extend(Next, states, events, s7, Core(Payout.Touch(y, true)), s8);
    states, events := states + [s8], events + [Core(Payout.Touch(y, true))];
  }

  /** Exactly: no run pays an order twice if and only if LND registers what it
      is handed within the grace window. */
  lemma NeverTwiceIff(timing: Timing)
    requires 0 < timing.grace && 0 < timing.registers
    ensures (forall states: seq<State>, events: seq<Event>, k: nat, c: nat, d: nat ::
               PaysTwice(states, events, k, c, d) ==> states[0].timing != timing)
      <==> timing.registers <= timing.grace
  {
    if timing.registers <= timing.grace {
      forall states: seq<State>, events: seq<Event>, k: nat, c: nat, d: nat | PaysTwice(states, events, k, c, d)
        ensures states[0].timing != timing
      {
        if states[0].timing == timing {
          NeverTwoPayouts(states, events, k, c, d);
          assert false;
        }
      }
    } else {
      var row: Order := *;
      row := row.(status := SettledHoldInvoice, payoutHash := None, payoutClaimedAt := None);
      var states, events := SlowRegistrationPaysTwice(timing, row, 0);
    }
  }
}
