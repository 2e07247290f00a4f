/** The waiting-duty timeout. `taken_at` anchors the clock of whoever owes the
    next move; every hand-over of the duty restarts it, and the job re-reads
    the row before it acts on a stale selection. */
module Duty {
  import opened Orders
  import opened Database
  import opened HoldInvoice
  import opened Timeouts
  import opened Runs

  // ---- The job ----

  /** The re-read row is still waiting and still past its window. */
  predicate Eligible(row: Order, now: int, expiration: nat) {
    Waiting(row.status) && row.takenAt < now - expiration
  }

  /** The job's writes to one order, statement by statement; whatever fails on
      the way, the order ends as `TimeoutBody` says. */
  method CloseOrReopen(db: Db, id: OrderId, turn: TimeoutTurn)
    requires id in db.orders && Waiting(db.orders[id].status)
    modifies db`orders
    ensures db.orders == old(db.orders)[id := TimeoutBody(old(db.orders)[id], turn)]
  {
    var order := db.orders[id];
    if order.hash.Some? && !turn.holdCanceled { return; }
    if !turn.bondDecided { return; }
    var amount, fee := order.amount, order.fee;
    if order.priceFromApi {
      amount, fee := 0, 0;
    }
    var newStatus := Canceled;
    if TakerDefaults(order) {
      newStatus := Pending;
      if turn.reset {
        var _ := db.UpdateOrderToInitialState(id, amount, fee, 0);
      }
    }
    ConcludeOrder(db, id, newStatus, turn);
  }

  method ConcludeOrder(db: Db, id: OrderId, status: Status, turn: TimeoutTurn)
    requires id in db.orders
    modifies db`orders
    ensures db.orders == old(db.orders)[id := Conclude(old(db.orders)[id], status, turn)]
  {
    if !turn.keysCleared { return; }
    var edited := db.EditPubkeysOrder(id);
    if turn.published && turn.persisted {
      var _ := db.Update(id, edited.value.(status := status, eventId := turn.eventId));
    }
  }

  /** One tick over a selection made earlier, however stale: exactly the orders
      still due on the re-read are acted on. */
  method CancelOrdersTick(db: Db, selected: set<OrderId>, expiration: nat, turns: map<OrderId, TimeoutTurn>)
    requires selected <= turns.Keys
    modifies db`orders
    ensures db.orders.Keys == old(db.orders).Keys
    ensures forall id :: id in db.orders ==>
      db.orders[id] == if id in selected && Eligible(old(db.orders)[id], turns[id].now, expiration)
                       then TimeoutBody(old(db.orders)[id], turns[id])
                       else old(db.orders)[id]
  {
    ghost var orders := db.orders;
    var todo := selected;
    while todo != {}
      invariant todo <= selected && db.orders.Keys == orders.Keys
      invariant forall id :: id in db.orders && id in todo ==> db.orders[id] == orders[id]
      invariant forall id :: id in db.orders && id !in todo ==>
        db.orders[id] == if id in selected && Eligible(orders[id], turns[id].now, expiration)
                         then TimeoutBody(orders[id], turns[id]) else orders[id]
    {
      var id :| id in todo;
      todo := todo - {id};
      if id in db.orders && Eligible(db.orders[id], turns[id].now, expiration) {
        CloseOrReopen(db, id, turns[id]);
      }
    }
  }

  // ---- Every run of one order ----

  /** The duty in force: who holds it, and when the handler that imposed it
      stamped its anchor. */
  datatype Held = Held(party: Party, since: int)

  /** A handler between stamping its in-memory row and committing it. */
  datatype Prepared = Prepared(take: Order, fromAddInvoice: bool, at: int)

  /** `promotedAt`: when a bond's taker was last promoted onto the row, until
      the order goes back to the book; `resuming`: the promoted takes that have
      yet to resume; `orphaned`: the buyer was asked by a resume that met a row
      its promotion had been wiped from. */
  datatype State = State(
    now: int, expiration: nat, row: Order, duty: Option<Held>, promotedAt: Option<int>, resuming: nat, orphaned: bool,
    handlers: map<nat, Prepared>, selected: bool)

  datatype Event =
    | Tick(now: int)
    | Prepare(p: nat, snapshot: Order, status: Status, fromAddInvoice: bool)
    | Commit(p: nat)
    | BondWindow(open: bool)             // pending <-> waiting-taker-bond
    | PromoteBond(merged: Order)
    | ResumeAfterBond(eventId: EventId)  // the promoted buyer is asked for an invoice
    | PaidDelivery(turn: PaidTurn)
    | TakerCancels(keysCleared: bool)    // back to the book, also before any trade
    | Leave(row: Order)                  // any other handler: the order is neither on the book nor waiting
    | Select
    | Act(timeout: TimeoutTurn)

  /** The seller paid, and the buyer is now asked for an invoice. */
  predicate AsksBuyer(row: Order, turn: PaidTurn) {
    PaidApplies(row) && row.buyerInvoice.None? && turn.notified && turn.rowWritten
  }

  ghost predicate Next(s: State, e: Event, t: State) {
    match e
    case Tick(now) => s.now <= now && t == s.(now := now)
    case Prepare(p, snapshot, status, fromAddInvoice) =>
      && Waiting(status)
      && var take := snapshot.(status := status, takenAt := s.now);
         t == s.(handlers := s.handlers[p := Prepared(take, fromAddInvoice, s.now)])
    case Commit(p) =>
      && p in s.handlers
      && var h := s.handlers[p];
         t == if TakeAdmits(s.row.status, h.fromAddInvoice)
              then s.(row := CasCompleteTake(s.row, h.take, h.fromAddInvoice), orphaned := false,
                      duty := Some(Held(DutyHolder(h.take.status), h.at)), handlers := s.handlers - {p})
              else s.(handlers := s.handlers - {p})
    case BondWindow(open) =>
      && s.row.status == (if open then Pending else WaitingTakerBond)
      && t == s.(row := s.row.(status := if open then WaitingTakerBond else Pending))
    case PromoteBond(merged) =>
      && PreTrade(s.row.status)
      && t == s.(row := CasPromote(s.row, merged.(takenAt := s.now)), promotedAt := Some(s.now),
                 resuming := s.resuming + 1)
    case ResumeAfterBond(eventId) =>
      && s.resuming > 0
      && t == if !PreTrade(s.row.status) then s.(resuming := s.resuming - 1)
              else s.(row := CasPretradeStatus(s.row, WaitingBuyerInvoice, eventId), resuming := s.resuming - 1,
                      duty := Some(Held(Buyer, if s.promotedAt.Some? then s.promotedAt.value else s.now)),
                      orphaned := s.promotedAt.None?)
    case PaidDelivery(turn) =>
      && turn.now == s.now
      && var row := Paid(s.row, turn);
         t == s.(row := row, orphaned := s.orphaned && !AsksBuyer(s.row, turn),
                 duty := if row.status == Active then None
                         else if AsksBuyer(s.row, turn) then Some(Held(Buyer, s.now))
                         else s.duty)
    case TakerCancels(keysCleared) =>
      && (PreTrade(s.row.status) || Waiting(s.row.status))
      && t == s.(row := if keysCleared then ClearTakerKeys(Reopened(s.row)) else Reopened(s.row),
                 duty := None, promotedAt := None)
    case Leave(row) =>
      && !PreTrade(row.status) && !Waiting(row.status)
      && t == s.(row := row, duty := None, promotedAt := None)
    case Select => t == s.(selected := TimeoutSelects(s.row, s.now - s.expiration))
    case Act(turn) =>
      && s.selected && turn.now == s.now
      && t == if Eligible(s.row, s.now, s.expiration)
              then var row := TimeoutBody(s.row, turn);
                   s.(row := row, selected := false, duty := if Waiting(row.status) then s.duty else None,
                      promotedAt := if Waiting(row.status) then s.promotedAt else None)
              else s.(selected := false)
  }

  ghost predicate Initial(s: State) {
    && PreTrade(s.row.status) && s.row.takenAt < s.now && 0 < s.now
    && s.duty == None && s.promotedAt == None && s.resuming == 0 && s.handlers == map[] && !s.selected
  }

  /** A waiting row's anchor is its duty's own, unless the duty is orphaned:
      then the row's is older. */
  ghost predicate Anchored(s: State) {
    && s.duty.Some? && s.duty.value.party == DutyHolder(s.row.status) && s.duty.value.since <= s.now
    && (if s.orphaned then s.row.takenAt < s.duty.value.since else s.row.takenAt == s.duty.value.since)
  }

  ghost predicate Inv(s: State) {
    && 0 < s.now
    && (Waiting(s.row.status) ==> Anchored(s))
    && (PreTrade(s.row.status) ==>
          if s.promotedAt.Some? then s.row.takenAt == s.promotedAt.value <= s.now else s.row.takenAt < s.now)
    && forall p :: p in s.handlers ==>
         Waiting(s.handlers[p].take.status) && s.handlers[p].take.takenAt == s.handlers[p].at <= s.now
  }

  lemma HandlerKeepsInv(s: State, e: Event, t: State)
    requires Inv(s) && Next(s, e, t) && (e.Prepare? || e.Commit?)
    ensures Inv(t)
  {
  }

  lemma PaidKeepsInv(s: State, e: Event, t: State)
    requires Inv(s) && Next(s, e, t) && e.PaidDelivery?
    ensures Inv(t)
  {
  }

  lemma BondKeepsInv(s: State, e: Event, t: State)
    requires Inv(s) && Next(s, e, t) && (e.BondWindow? || e.PromoteBond? || e.ResumeAfterBond?)
    ensures Inv(t)
  {
  }

  lemma ActKeepsInv(s: State, e: Event, t: State)
    requires Inv(s) && Next(s, e, t) && e.Act?
    ensures Inv(t)
  {
    if Eligible(s.row, s.now, s.expiration) {
      TimeoutVerdict(s.row, e.timeout);
    }
  }

  lemma OtherStepKeepsInv(s: State, e: Event, t: State)
    requires Inv(s) && Next(s, e, t)
    requires e.Tick? || e.TakerCancels? || e.Leave? || e.Select?
    ensures Inv(t)
  {
  }

  lemma StepKeepsInv(s: State, e: Event, t: State)
    requires Inv(s) && Next(s, e, t)
    ensures Inv(t)
  {
    if e.Prepare? || e.Commit? { HandlerKeepsInv(s, e, t); }
    else if e.PaidDelivery? { PaidKeepsInv(s, e, t); }
    else if e.Act? { ActKeepsInv(s, e, t); }
    else if e.BondWindow? || e.PromoteBond? || e.ResumeAfterBond? { BondKeepsInv(s, e, t); }
    else { OtherStepKeepsInv(s, e, t); }
  }

  lemma RunKeepsInv(states: seq<State>, events: seq<Event>, k: nat)
    requires IsRun(Next, states, events) && Initial(states[0])
    requires k < |states|
    ensures Inv(states[k])
  {
    forall s, e, t | Inv(s) && Next(s, e, t) ensures Inv(t) {
      StepKeepsInv(s, e, t);
    }
    InvariantOnRun(Inv, Next, states, events, k);
  }

  /** The job's test, at whatever time it runs, asks exactly whether the holder
      of the duty in force has had it for more than the whole window. */
  ghost predicate ClockIsFair(s: State) {
    s.duty.Some? && forall now :: Eligible(s.row, now, s.expiration) <==> now - s.duty.value.since > s.expiration
  }

  /** Fairness, exactly: in every run, while an order waits the job's test is
      the fair one if and only if the duty is not orphaned. */
  lemma ClockFairIff(states: seq<State>, events: seq<Event>, k: nat)
    requires IsRun(Next, states, events) && Initial(states[0])
    requires k < |states| && Waiting(states[k].row.status)
    ensures ClockIsFair(states[k]) <==> !states[k].orphaned
  {
    RunKeepsInv(states, events, k);
    var s := states[k];
    assert Anchored(s);
    if s.orphaned {
      var now := s.duty.value.since + s.expiration;
      assert Eligible(s.row, now, s.expiration);
    }
  }

  /** A duty becomes orphaned exactly when a resume wins on a row whose
      promotion has been wiped: a fair clock is lost in no other way. */
  lemma OrphanedIff(states: seq<State>, events: seq<Event>, k: nat)
    requires IsRun(Next, states, events) && Initial(states[0])
    requires k < |events| && Waiting(states[k + 1].row.status)
    requires !(Waiting(states[k].row.status) && states[k].orphaned)
    ensures !ClockIsFair(states[k + 1]) <==>
      events[k].ResumeAfterBond? && PreTrade(states[k].row.status) && states[k].promotedAt.None?
  {
    RunKeepsInv(states, events, k);
    ClockFairIff(states, events, k + 1);
    assert Next(states[k], events[k], states[k + 1]);
    OrphanStep(states[k], events[k], states[k + 1]);
  }

  lemma OrphanStep(s: State, e: Event, t: State)
    requires Inv(s) && Next(s, e, t) && Waiting(t.row.status)
    requires !(Waiting(s.row.status) && s.orphaned)
    ensures t.orphaned <==> e.ResumeAfterBond? && PreTrade(s.row.status) && s.promotedAt.None?
  {
    if e.Act? && Eligible(s.row, s.now, s.expiration) {
      TimeoutVerdict(s.row, e.timeout);
    }
  }

  /** The job acts on an order (cancels its hold, decides its bond, writes its
      row) only if the party holding the duty in force has held it for more
      than the whole window, or the duty is orphaned. It makes the order leave
      the waiting set only after the hold was canceled and the bond decided,
      back to the book only if the taker defaulted, then with nothing of the
      failed escrow, and canceled only if the maker did; and it never touches
      the maker's side. */
  lemma TimeoutIsFair(states: seq<State>, events: seq<Event>, k: nat)
    requires IsRun(Next, states, events) && Initial(states[0])
    requires k < |events| && events[k].Act? && Eligible(states[k].row, states[k].now, states[k].expiration)
    ensures var s := states[k];
      && Waiting(s.row.status) && s.duty.Some? && s.duty.value.party == DutyHolder(s.row.status)
      && (s.now - s.duty.value.since > s.expiration || s.orphaned)
    ensures var before, after, turn := states[k].row, states[k + 1].row, events[k].timeout;
      && (!Waiting(after.status) ==> (before.hash == None || turn.holdCanceled) && turn.bondDecided)
      && (after.status == Pending ==> states[k].duty.value.party != Maker(before.kind))
      && (after.status == Pending && turn.reset ==> Unheld(after) && after.takenAt == 0 && after.buyerInvoice == None)
      && (after.status == Canceled ==> states[k].duty.value.party == Maker(before.kind))
      && MakerSide(before.kind, after) == MakerSide(before.kind, before)
  {
    RunKeepsInv(states, events, k);
    assert Next(states[k], events[k], states[k + 1]);
    TimeoutVerdict(states[k].row, events[k].timeout);
    TimeoutCleansRow(states[k].row, events[k].timeout);
    RepublishedRowIsInitial(states[k].row, events[k].timeout);
  }

  function Opening(row: Order, now: int, expiration: nat): State {
    State.State(now, expiration, row, None, None, 0, false, map[], false)
  }

  /** The bonded buyer of a sell order cancels while their take resumes. */
  function Orphan(row: Order, now: int, expiration: nat): State {
    var wiped := ClearTakerKeys(Reopened(CasPromote(row, row.(takenAt := now))));
    Opening(wiped.(status := WaitingBuyerInvoice, eventId := 0), now, expiration)
      .(duty := Some(Held(Buyer, now)), orphaned := true)
  }

  lemma CancelWhileResuming(row: Order, now: int, expiration: nat) returns (states: seq<State>, events: seq<Event>)
    requires row.status == Pending && row.kind == Sell
    ensures IsRun(Next, states, events)
    ensures states[0] == Opening(row, now, expiration) && states[|events|] == Orphan(row, now, expiration)
  {
    var s0 := Opening(row, now, expiration);
    var s1 := s0.(row := CasPromote(row, row.(takenAt := now)), promotedAt := Some(now), resuming := 1);
    var s2 := s1.(row := ClearTakerKeys(Reopened(s1.row)), promotedAt := None);
    states, events := [s0], [];
    Extend(Next, states, events, s0, PromoteBond(row), s1);
    states, events := states + [s1], events + [PromoteBond(row)];
    Extend(Next, states, events, s1, Event.TakerCancels(true), s2);
    states, events := states + [s2], events + [Event.TakerCancels(true)];
    Extend(Next, states, events, s2, ResumeAfterBond(0), Orphan(row, now, expiration));
    states, events := states + [Orphan(row, now, expiration)], events + [ResumeAfterBond(0)];
  }

  /** The orphaned duty is real: on any pending sell order a bonded buyer who
      cancels while their take resumes is asked for an invoice all the same,
      and the job acts on them in the very second they are asked. */
  lemma OrphanedAtOnce(row: Order, now: int, expiration: nat, timeout: TimeoutTurn)
      returns (states: seq<State>, events: seq<Event>, last: State)
    requires row.status == Pending && row.kind == Sell && row.takenAt < now && expiration < now && timeout.now == now
    ensures IsRun(Next, states, events + [Act(timeout)]) && Initial(states[0]) && states[0].row == row
    ensures states[|events|] == last
    ensures Eligible(last.row, last.now, expiration) && last.expiration == expiration
    ensures last.duty == Some(Held(Buyer, last.now))
  {
    states, events := CancelWhileResuming(row, now, expiration);
    var asked := Orphan(row, now, expiration);
    last := asked.(selected := true);
    Extend(Next, states, events, asked, Select, last);
    states, events := states + [last], events + [Select];
    var after := TimeoutBody(last.row, timeout);
    var acted := last.(row := after, selected := false, duty := if Waiting(after.status) then last.duty else None);
    Extend(Next, states, events, last, Act(timeout), acted);
    states := states + [acted];
  }

  /** A genuine timeout is not lost to the re-read: an order that was due when
      the job selected, and that nobody has touched since, is still selected
      and still due when its turn comes. */
  lemma {:induction false} GenuineTimeoutNotSkipped(states: seq<State>, events: seq<Event>, i: nat, j: nat)
    requires IsRun(Next, states, events)
    requires i < j < |states| && events[i].Select?
    requires Eligible(states[i].row, states[i].now, states[i].expiration)
    requires forall k :: i < k < j ==> events[k].Tick? || events[k].Prepare?
    ensures states[j].selected && states[i].now <= states[j].now && states[j].row == states[i].row
    ensures states[j].expiration == states[i].expiration && Eligible(states[j].row, states[j].now, states[j].expiration)
  {
    assert Next(states[j - 1], events[j - 1], states[j - 1 + 1]);
    if i + 1 < j {
      GenuineTimeoutNotSkipped(states, events, i, j - 1);
    }
  }
}
