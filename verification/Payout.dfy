/** The buyer-payout claim of one order. Dispatchers, watchers and reconcilers
    act on tickets that may be long stale; the row only ever compares the
    payment hash and a one-second timestamp token. */
module Payout {
  import opened Orders
  import opened Runs

  const MIN_GRACE_SECS: int := 30
  const QUEUE_HEARTBEAT_SECS: int := MIN_GRACE_SECS * 2 / 3

  /** What a caller holds: the claim it belongs to (known only to the model),
      the payment hash and the token it was last given. */
  datatype Ticket = Ticket(claim: nat, hash: PaymentHash, token: Option<int>)

  /** `live` is the claim the row's marker stands for; `sent` the claims whose
      payment was dispatched; `released` the claims whose own holder released
      them. */
  datatype State = State(
    now: int,
    row: Order,
    live: Option<nat>,
    issued: set<Ticket>,
    claims: nat,
    releases: nat,
    sent: set<nat>,
    released: set<nat>)

  datatype Event =
    | Clock(now: int)
    | Claim(hash: PaymentHash)
    | Touch(ticket: Ticket, send: bool)  // heartbeat, or the last check before the send
    | Observe                            // the reconciler's selection reads the marker
    | Clear(ticket: Ticket)
    | FailClaim(ticket: Ticket)
    | RecordFailure                      // an attempt failed before, or after, holding a claim
    | Finalize(status: Status)           // settled-hold-invoice moves on

  function Release(s: State, row: Order, ticket: Ticket): State {
    s.(row := row, live := None, releases := s.releases + 1, released := s.released + {ticket.claim})
  }

  ghost predicate Next(s: State, e: Event, t: State) {
    match e
    case Clock(now) => t == s.(now := now)
    case Claim(hash) =>
      t == if !PayoutClaimable(s.row) then s
           else s.(row := ClaimPayout(s.row, hash, s.now), live := Some(s.claims), claims := s.claims + 1,
                   issued := s.issued + {Ticket(s.claims, hash, Some(s.now))})
    case Touch(ticket, send) =>
      && ticket in s.issued
      && t == if !PayoutTouchable(s.row, ticket.hash, ticket.token) then s
              else s.(row := TouchPayout(s.row, ticket.hash, ticket.token, s.now),
                      issued := s.issued + {ticket.(token := Some(s.now))},
                      sent := if send then s.sent + {ticket.claim} else s.sent)
    case Observe =>
      && s.live.Some? && s.row.payoutHash.Some?
      && t == s.(issued := s.issued + {Ticket(s.live.value, s.row.payoutHash.value, s.row.payoutClaimedAt)})
    case Clear(ticket) =>
      && ticket in s.issued
      && t == if !OwnsPayout(s.row, ticket.hash, ticket.token) then s
              else Release(s, ClearPayout(s.row, ticket.hash, ticket.token), ticket)
    case FailClaim(ticket) =>
      && ticket in s.issued
      && t == if !OwnsPayout(s.row, ticket.hash, ticket.token) then s
              else Release(s, FailPayout(s.row, ticket.hash, ticket.token), ticket)
    case RecordFailure =>
      t == s.(row := s.row.(failedPayment := true))
    case Finalize(status) =>
      s.row.status == SettledHoldInvoice && t == s.(row := s.row.(status := status))
  }

  /** A row met with or without a marker; a marker from before the column
      existed has no token. */
  ghost predicate Initial(s: State) {
    && s.releases == 0 && s.sent == {} && s.released == {}
    && if s.row.payoutHash.Some?
       then s.live == Some(0) && s.claims == 1 && s.issued == {Ticket(0, s.row.payoutHash.value, s.row.payoutClaimedAt)}
       else s.live == None && s.claims == 0 && s.issued == {}
  }

  // ---- Without any clock assumption ----

  ghost predicate Conserved(s: State) {
    && s.claims - s.releases == (if s.row.payoutHash.Some? then 1 else 0)
    && (s.live.Some? <==> s.row.payoutHash.Some?)
    && (forall x :: x in s.issued ==> x.claim < s.claims)
    && (s.live.Some? ==> s.live.value < s.claims)
    && (s.live.Some? ==> forall x :: x in s.issued && x.claim == s.live.value ==> Some(x.hash) == s.row.payoutHash)
  }

  lemma StepConserves(s: State, e: Event, t: State)
    requires Conserved(s) && Next(s, e, t)
    ensures Conserved(t)
  {
  }

  /** Successful claims minus successful releases is one while the marker is
      set and zero otherwise. The retry job only ever sees orders without a
      claim, the reconciler only orders with one, and every one without a
      token. And a success by a stale ticket can only hit a claim for the same
      payment. */
  lemma PayoutConserved(states: seq<State>, events: seq<Event>, k: nat, cutoff: int, x: Ticket)
    requires IsRun(Next, states, events) && Initial(states[0])
    requires k < |states|
    ensures var s := states[k];
      && s.claims - s.releases == (if s.row.payoutHash.Some? then 1 else 0)
      && (RetrySelects(s.row) ==> s.live == None && s.claims == s.releases)
      && (ReconcileSelects(s.row, cutoff) ==> s.live.Some? && s.claims == s.releases + 1)
      && (s.live.Some? && s.row.payoutClaimedAt == None && s.row.status == SettledHoldInvoice ==>
            ReconcileSelects(s.row, cutoff))
      && (x in s.issued && OwnsPayout(s.row, x.hash, x.token) ==>
            && s.live.Some?
            && forall y :: y in s.issued && y.claim == s.live.value ==> y.hash == x.hash)
  {
    RunConserves(states, events, k);
  }

  lemma RunConserves(states: seq<State>, events: seq<Event>, k: nat)
    requires IsRun(Next, states, events) && Initial(states[0])
    requires k < |states|
    ensures Conserved(states[k])
  {
    forall s, e, t | Conserved(s) && Next(s, e, t) ensures Conserved(t) {
      StepConserves(s, e, t);
    }
    InvariantOnRun(Conserved, Next, states, events, k);
  }

  // ---- When only the holder can act ----

  /** No ticket but the live claim's passes the row's comparison. */
  ghost predicate HolderOnly(s: State) {
    forall x :: x in s.issued && OwnsPayout(s.row, x.hash, x.token) ==> Some(x.claim) == s.live
  }

  /** The stamp this step makes is new: no ticket of another claim carries the
      same payment hash and second. */
  ghost predicate FreshStamp(s: State, e: Event) {
    && (e.Claim? && PayoutClaimable(s.row) ==>
          forall x :: x in s.issued ==> !(x.hash == e.hash && x.token == Some(s.now)))
    && (e.Touch? && PayoutTouchable(s.row, e.ticket.hash, e.ticket.token) ==>
          forall x :: x in s.issued && x.claim != e.ticket.claim ==>
            !(x.hash == e.ticket.hash && x.token == Some(s.now)))
  }

  lemma StepOwnedIff(s: State, e: Event, t: State)
    requires Conserved(s) && HolderOnly(s) && Next(s, e, t)
    ensures HolderOnly(t) <==> FreshStamp(s, e)
  {
    if e.Touch? && PayoutTouchable(s.row, e.ticket.hash, e.ticket.token) {
      TouchOwnedIff(s, e, t);
    }
  }

  lemma TouchOwnedIff(s: State, e: Event, t: State)
    requires Conserved(s) && HolderOnly(s) && Next(s, e, t)
    requires e.Touch? && PayoutTouchable(s.row, e.ticket.hash, e.ticket.token)
    ensures HolderOnly(t) <==> FreshStamp(s, e)
  {
    assert t.row.payoutHash == Some(e.ticket.hash) && t.row.payoutClaimedAt == Some(s.now)
      && t.live == Some(e.ticket.claim);
    if HolderOnly(t) {
      forall x | x in s.issued && x.claim != e.ticket.claim
        ensures !(x.hash == e.ticket.hash && x.token == Some(s.now))
      {
        assert x in t.issued;
      }
    }
  }

  lemma OwnedAtStart(s: State)
    requires Initial(s)
    ensures HolderOnly(s)
  {
  }

  /** Ownership, exactly: throughout a run a touch or release succeeds only for
      the live claim's holder if and only if every stamp made in it was new. */
  lemma OwnershipIff(states: seq<State>, events: seq<Event>)
    requires IsRun(Next, states, events) && Initial(states[0])
    ensures (forall k :: 0 <= k < |states| ==> HolderOnly(states[k])) <==>
      (forall k :: 0 <= k < |events| ==> FreshStamp(states[k], events[k]))
  {
    if forall k :: 0 <= k < |events| ==> FreshStamp(states[k], events[k]) {
      forall k | 0 <= k < |states| ensures HolderOnly(states[k]) {
        FreshStampsOwned(states, events, k);
      }
    } else {
      var k :| 0 <= k < |events| && !FreshStamp(states[k], events[k]);
      if forall i :: 0 <= i < |states| ==> HolderOnly(states[i]) {
        RunConserves(states, events, k);
        assert HolderOnly(states[k + 1]) && Next(states[k], events[k], states[k + 1]);
        StepOwnedIff(states[k], events[k], states[k + 1]);
        assert false;
      }
    }
  }

  lemma {:induction false} FreshStampsOwned(states: seq<State>, events: seq<Event>, k: nat)
    requires IsRun(Next, states, events) && Initial(states[0])
    requires k < |states| && forall i :: 0 <= i < k ==> FreshStamp(states[i], events[i])
    ensures HolderOnly(states[k])
  {
    if k == 0 {
      OwnedAtStart(states[0]);
    } else {
      FreshStampsOwned(states, events, k - 1);
      RunConserves(states, events, k - 1);
      assert Next(states[k - 1], events[k - 1], states[k - 1 + 1]);
      StepOwnedIff(states[k - 1], events[k - 1], states[k]);
    }
  }

  /** At any moment at most one dispatched payment is unreleased, the live one:
      a second payout is sent only after the holder of the first let go. */
  lemma {:induction false} OnePaymentAtATime(states: seq<State>, events: seq<Event>, k: nat)
    requires IsRun(Next, states, events) && Initial(states[0])
    requires k < |states| && forall i :: 0 <= i < k ==> FreshStamp(states[i], events[i])
    ensures forall c :: c in states[k].sent && c !in states[k].released ==> Some(c) == states[k].live
  {
    if k > 0 {
      OnePaymentAtATime(states, events, k - 1);
      FreshStampsOwned(states, events, k - 1);
      RunConserves(states, events, k - 1);
      assert Next(states[k - 1], events[k - 1], states[k - 1 + 1]);
    }
  }

  predicate Before(a: Option<int>, b: int) {
    a.None? || a.value < b
  }

  /** A clock discipline: a new claim falls in a later second than every token
      handed out before, and a touch in none earlier. */
  ghost predicate Disciplined(s: State, e: Event) {
    && (e.Claim? ==> forall x :: x in s.issued ==> Before(x.token, s.now))
    && (e.Touch? ==> forall x :: x in s.issued ==> Before(x.token, s.now + 1))
  }

  /** Tickets of other claims carry older tokens than the row. */
  ghost predicate Newest(s: State) {
    && Conserved(s) && HolderOnly(s)
    && (forall x :: x in s.issued && Some(x.claim) != s.live && s.live.Some? ==>
          s.row.payoutClaimedAt.Some? && Before(x.token, s.row.payoutClaimedAt.value))
    && (s.live.Some? && s.row.payoutClaimedAt.None? ==> forall x :: x in s.issued ==> Some(x.claim) == s.live)
  }

  lemma DisciplinedStep(s: State, e: Event, t: State)
    requires Newest(s) && Next(s, e, t) && Disciplined(s, e)
    ensures FreshStamp(s, e)
    ensures Newest(t)
  {
    StepConserves(s, e, t);
    assert FreshStamp(s, e);
    StepOwnedIff(s, e, t);
  }

  ghost predicate DisciplinedNext(s: State, e: Event, t: State) {
    Next(s, e, t) && Disciplined(s, e)
  }

  /** Re-claims in later seconds are enough: then every stamp is new. */
  lemma LaterSecondsSuffice(states: seq<State>, events: seq<Event>, k: nat)
    requires IsRun(DisciplinedNext, states, events) && Initial(states[0])
    requires k < |states|
    ensures HolderOnly(states[k])
    ensures k < |events| ==> FreshStamp(states[k], events[k])
  {
    OwnedAtStart(states[0]);
    forall s, e, t | Newest(s) && DisciplinedNext(s, e, t) ensures Newest(t) {
      DisciplinedStep(s, e, t);
    }
    InvariantOnRun(Newest, DisciplinedNext, states, events, k);
    if k < |events| {
      assert DisciplinedNext(states[k], events[k], states[k + 1]);
      DisciplinedStep(states[k], events[k], states[k + 1]);
    }
  }

  /** A stamp that is not new: a claim released and taken again within one
      second can be released by the holder of the first. */
  lemma SameSecondReclaim(row: Order, hash: PaymentHash, now: int)
      returns (states: seq<State>, events: seq<Event>, stale: Ticket)
    requires PayoutClaimable(row)
    ensures IsRun(Next, states, events) && Initial(states[0]) && states[0].row == row
    ensures var s := states[|events|];
      stale in s.issued && OwnsPayout(s.row, stale.hash, stale.token) && s.live.Some? && stale.claim != s.live.value
  {
    stale := Ticket(0, hash, Some(now));
    var s0 := State(now, row, None, {}, 0, 0, {}, {});
    var s1 := s0.(row := ClaimPayout(row, hash, now), live := Some(0), claims := 1, issued := {stale});
    var s2 := Release(s1, FailPayout(s1.row, hash, Some(now)), stale);
    var s3 := s2.(row := ClaimPayout(s2.row, hash, now), live := Some(1), claims := 2,
                  issued := {stale, Ticket(1, hash, Some(now))});
    states, events := [s0, s1, s2, s3], [Claim(hash), FailClaim(stale), Claim(hash)];
    assert Next(s0, events[0], s1) && Next(s1, events[1], s2) && Next(s2, events[2], s3);
  }

  // ---- The grace window ----

  ghost predicate ClockNeverBack(states: seq<State>, events: seq<Event>, i: nat)
    requires |states| == |events| + 1
  {
    forall k :: i <= k < |events| && events[k].Clock? ==> states[k].now <= events[k].now
  }

  /** One step, seen from a claim: claims only grow in number, and while this
      one stays live its token moves only to the present. */
  lemma TokenStep(s: State, e: Event, t: State, live: nat)
    requires Conserved(s) && Next(s, e, t) && live < s.claims && (e.Clock? ==> s.now <= e.now)
    ensures s.claims <= t.claims && s.now <= t.now
    ensures t.live == Some(live) ==> s.live == Some(live)
    ensures t.live == Some(live) ==>
      t.row.payoutClaimedAt == s.row.payoutClaimedAt || t.row.payoutClaimedAt == Some(s.now)
  {
  }

  /** While the same claim stays live its token never falls behind the last
      stamp. */
  lemma {:induction false} TokenKeepsUp(states: seq<State>, events: seq<Event>, j: nat, k: nat)
    requires IsRun(Next, states, events) && Initial(states[0])
    requires j <= k < |states| && ClockNeverBack(states, events, j)
    requires states[j].live.Some? && states[j].row.payoutClaimedAt == Some(states[j].now)
    ensures states[j].now <= states[k].now && states[j].claims <= states[k].claims
    ensures states[k].live == states[j].live ==>
      states[k].row.payoutClaimedAt.Some? && states[k].row.payoutClaimedAt.value >= states[j].now
  {
    LiveIsCounted(states, events, j);
    if j < k {
      TokenKeepsUp(states, events, j, k - 1);
      TokenStepOnRun(states, events, k - 1, states[j].live.value);
    }
  }

  lemma LiveIsCounted(states: seq<State>, events: seq<Event>, k: nat)
    requires IsRun(Next, states, events) && Initial(states[0])
    requires k < |states| && states[k].live.Some?
    ensures states[k].live.value < states[k].claims
  {
    RunConserves(states, events, k);
  }

  lemma TokenStepOnRun(states: seq<State>, events: seq<Event>, k: nat, live: nat)
    requires IsRun(Next, states, events) && Initial(states[0])
    requires k < |events| && live < states[k].claims && (events[k].Clock? ==> states[k].now <= events[k].now)
    ensures var s, t := states[k], states[k + 1];
      && s.claims <= t.claims && s.now <= t.now
      && (t.live == Some(live) ==>
            && s.live == Some(live)
            && (t.row.payoutClaimedAt == s.row.payoutClaimedAt || t.row.payoutClaimedAt == Some(s.now)))
  {
    RunConserves(states, events, k);
    TokenStep(states[k], events[k], states[k + 1], live);
  }

  /** The step before `j` stamped the live claim: a successful claim, or a
      successful touch. */
  ghost predicate StampedAt(states: seq<State>, events: seq<Event>, j: nat)
    requires |states| == |events| + 1
  {
    && 0 < j < |states|
    && var s, e := states[j - 1], events[j - 1];
       || (e.Claim? && PayoutClaimable(s.row))
       || (e.Touch? && PayoutTouchable(s.row, e.ticket.hash, e.ticket.token))
  }

  /** A claim stamped less than the grace window ago, by the claim itself or
      by a heartbeat, is never selected for reconciliation. */
  lemma StampedClaimNotReconciled(states: seq<State>, events: seq<Event>, j: nat, k: nat, grace: int)
    requires IsRun(Next, states, events) && Initial(states[0])
    requires j <= k < |states| && ClockNeverBack(states, events, j) && StampedAt(states, events, j)
    requires states[k].live == states[j].live && states[k].now < states[j].now + grace
    ensures !ReconcileSelects(states[k].row, states[k].now - grace)
  {
    RunConserves(states, events, j - 1);
    assert Next(states[j - 1], events[j - 1], states[j - 1 + 1]);
    TokenKeepsUp(states, events, j, k);
  }

  /** Without a touch the token stays at the last stamp. */
  lemma {:induction false} TokenStays(states: seq<State>, events: seq<Event>, j: nat, k: nat)
    requires IsRun(Next, states, events) && Initial(states[0])
    requires j <= k < |states| && forall i :: j <= i < k ==> !events[i].Touch?
    requires states[j].live.Some?
    ensures states[j].claims <= states[k].claims
    ensures states[k].live == states[j].live ==> states[k].row.payoutClaimedAt == states[j].row.payoutClaimedAt
  {
    RunConserves(states, events, j);
    if j < k {
      TokenStays(states, events, j, k - 1);
      assert Next(states[k - 1], events[k - 1], states[k - 1 + 1]);
    }
  }

  /** A claim nobody has touched since its last stamp is reconciled as soon as
      the grace window is over, and not a second before. */
  lemma AbandonedClaimReconciled(states: seq<State>, events: seq<Event>, j: nat, k: nat, grace: int)
    requires IsRun(Next, states, events) && Initial(states[0])
    requires j <= k < |states| && StampedAt(states, events, j)
    requires forall i :: j <= i < k ==> !events[i].Touch?
    requires states[k].live == states[j].live
    ensures ReconcileSelects(states[k].row, states[k].now - grace) <==>
      states[k].row.status == SettledHoldInvoice && states[j].now + grace <= states[k].now
  {
    RunConserves(states, events, j - 1);
    RunConserves(states, events, k);
    assert Next(states[j - 1], events[j - 1], states[j - 1 + 1]);
    TokenStays(states, events, j, k);
  }

  /** A failure entered the row by this step: the holder of a claim failed it,
      or an attempt that held none recorded its failure. */
  ghost predicate Fails(s: State, e: Event) {
    e.RecordFailure? || (e.FailClaim? && OwnsPayout(s.row, e.ticket.hash, e.ticket.token))
  }

  /** The retry job acts on an order exactly while it is settled, unclaimed, and
      its payout has failed: so the row said from the start, or some attempt
      has failed since. */
  lemma RetryIffFailed(states: seq<State>, events: seq<Event>, k: nat)
    requires IsRun(Next, states, events) && Initial(states[0])
    requires k < |states|
    ensures RetrySelects(states[k].row) <==>
      && states[k].row.status == SettledHoldInvoice && states[k].live == None
      && (states[0].row.failedPayment || exists i :: 0 <= i < k && Fails(states[i], events[i]))
  {
    RunConserves(states, events, k);
    FailureRecorded(states, events, k);
  }

  lemma {:induction false} FailureRecorded(states: seq<State>, events: seq<Event>, k: nat)
    requires IsRun(Next, states, events) && k < |states|
    ensures states[k].row.failedPayment <==>
      states[0].row.failedPayment || exists i :: 0 <= i < k && Fails(states[i], events[i])
  {
    if k > 0 {
      FailureRecorded(states, events, k - 1);
      assert Next(states[k - 1], events[k - 1], states[k - 1 + 1]);
    }
  }

  /** The reconciler's window, whatever the configured retry interval. */
  function Grace(retriesInterval: nat): int {
    if retriesInterval < MIN_GRACE_SECS then MIN_GRACE_SECS else retriesInterval
  }

  /** A claim whose dispatcher beats every heartbeat is out of the
      reconciler's reach while it queues. */
  lemma HeartbeatHoldsClaim(states: seq<State>, events: seq<Event>, j: nat, k: nat, retriesInterval: nat)
    requires IsRun(Next, states, events) && Initial(states[0])
    requires j <= k < |states| && ClockNeverBack(states, events, j) && StampedAt(states, events, j)
    requires states[k].live == states[j].live && states[k].now <= states[j].now + 20
    ensures QUEUE_HEARTBEAT_SECS == 20 && Grace(retriesInterval) >= 30 && Grace(retriesInterval) >= retriesInterval
    ensures !ReconcileSelects(states[k].row, states[k].now - Grace(retriesInterval))
  {
    StampedClaimNotReconciled(states, events, j, k, Grace(retriesInterval));
  }
}
