/** The race to leave the pre-trade window: takes, maker cancels and bond
    promotions, each writing from a snapshot that may be arbitrarily stale. */
module PreTrade {
  import opened Orders
  import opened Database
  import opened Runs

  /** One compare-and-swap write, carrying whatever its caller had in memory. */
  datatype Write =
    | Swap(newStatus: Status, eventId: EventId)  // maker cancel, or resume after a bond
    | Promote(merged: Order)                     // the winning bond's taker context
    | Take(take: Order)                          // take_sell, take_buy, bond resume
    | BuyerInvoice(take: Order)                  // add_invoice

  /** The statuses each caller actually writes. */
  predicate Issued(w: Write) {
    match w
    case Swap(st, _) => st == Canceled || st == WaitingBuyerInvoice
    case Promote(_) => true
    case Take(take) => Waiting(take.status)
    case BuyerInvoice(take) => take.status == WaitingPayment
  }

  predicate Matches(w: Write, row: Order) {
    PreTrade(row.status) || (w.BuyerInvoice? && row.status == WaitingBuyerInvoice)
  }

  function Apply(w: Write, row: Order): Order {
    match w
    case Swap(st, ev) => CasPretradeStatus(row, st, ev)
    case Promote(merged) => CasPromote(row, merged)
    case Take(take) => CasCompleteTake(row, take, false)
    case BuyerInvoice(take) => CasCompleteTake(row, take, true)
  }

  /** `exits` counts the writes that took the row out of the window since the
      last reset; `holder` is the take whose context the row carries,
      `promoted` the last bond promotion it admitted, and `bare` says that the
      exit was a resume that met neither. */
  datatype State = State(row: Order, exits: nat, holder: Option<Order>, promoted: Option<Order>, bare: bool)

  datatype Event =
    | Issue(w: Write)
    | BondWindow(open: bool)                      // pending <-> waiting-taker-bond
    | Reset(amount: int, fee: int, devFee: int)   // back to the book

  /** A resume after a bond whose promotion a reset has wiped. */
  predicate BareResume(s: State, w: Write) {
    w.Swap? && w.newStatus == WaitingBuyerInvoice && s.promoted == None
  }

  function Step(s: State, w: Write): State {
    var row := Apply(w, s.row);
    State(row,
          if PreTrade(s.row.status) && !PreTrade(row.status) then s.exits + 1 else s.exits,
          if (w.Take? || w.BuyerInvoice?) && Matches(w, s.row) then Some(w.take) else s.holder,
          if w.Promote? && Matches(w, s.row) then Some(w.merged) else s.promoted,
          if !Matches(w, s.row) || w.Promote? then s.bare else BareResume(s, w))
  }

  ghost predicate Next(s: State, e: Event, t: State) {
    match e
    case Issue(w) => Issued(w) && (w.Promote? ==> w.merged.kind == s.row.kind) && t == Step(s, w)
    case BondWindow(open) =>
      && s.row.status == (if open then Pending else WaitingTakerBond)
      && t == s.(row := s.row.(status := if open then WaitingTakerBond else Pending))
    case Reset(amount, fee, devFee) => 
      t == State(ResetToInitial(s.row, amount, fee, devFee), 0, None, None, false)
  }

  ghost predicate Initial(s: State) {
    PreTrade(s.row.status) && s.exits == 0 && s.holder == None && s.promoted == None && !s.bare
  }

  predicate SameTerms(a: Order, b: Order) {
    && a.fiatAmount == b.fiatAmount && a.amount == b.amount && a.fee == b.fee && a.devFee == b.devFee
    && a.createdAt == b.createdAt && a.takenAt == b.takenAt
  }

  predicate SameEscrow(a: Order, b: Order) {
    a.preimage == b.preimage && a.hash == b.hash
  }

  /** Columns no pre-trade write may touch. */
  predicate SameElsewhere(a: Order, b: Order) {
    && a.kind == b.kind && a.priceFromApi == b.priceFromApi && a.invoiceHeldAt == b.invoiceHeldAt
    && a.buyerDispute == b.buyerDispute && a.failedPayment == b.failedPayment
    && a.payoutHash == b.payoutHash && a.payoutClaimedAt == b.payoutClaimedAt
    && a.cashuMint == b.cashuMint && a.cashuToken == b.cashuToken && a.cashuLockedAt == b.cashuLockedAt
  }

  /** The row carries one take's context whole: both sides, terms and escrow. */
  predicate CarriesTake(row: Order, take: Order) {
    && BuyerSide(row) == BuyerSide(take) && SellerSide(row) == SellerSide(take)
    && SameTerms(row, take) && SameEscrow(row, take) && row.buyerInvoice == take.buyerInvoice
  }

  /** The row carries one promotion whole: the taker's side and the terms. */
  predicate CarriesPromotion(row: Order, merged: Order) {
    && TakerSide(row.kind, row) == TakerSide(row.kind, merged) && SameTerms(row, merged)
    && (row.kind == Sell ==> row.buyerInvoice == merged.buyerInvoice)
  }

  /** Each writer stays in its own columns: a cancel changes the status and
      the event id only, a promotion the taker's side and the terms only. */
  lemma WritesStayInTheirColumns(w: Write, row: Order)
    requires w.Promote? ==> w.merged.kind == row.kind
    ensures var r := Apply(w, row);
      && SameElsewhere(r, row)
      && (!Matches(w, row) ==> r == row)
      && (w.Swap? ==> r.(status := row.status, eventId := row.eventId) == row)
      && (w.Promote? ==>
            && r.status == row.status && r.eventId == row.eventId && SameEscrow(r, row)
            && MakerSide(row.kind, r) == MakerSide(row.kind, row)
            && (row.kind == Buy ==> r.buyerInvoice == row.buyerInvoice)
            && (Matches(w, row) ==> CarriesPromotion(r, w.merged)))
      && (w.Swap? && Matches(w, row) ==> r.status == w.newStatus && r.eventId == w.eventId)
      && ((w.Take? || w.BuyerInvoice?) && Matches(w, row) ==>
            CarriesTake(r, w.take) && r.status == w.take.status && r.eventId == w.take.eventId)
  {
  }

  ghost predicate Inv(s: State) {
    && s.exits == (if PreTrade(s.row.status) then 0 else 1)
    && (s.holder.Some? ==> !PreTrade(s.row.status) && CarriesTake(s.row, s.holder.value))
    && (s.holder.None? && s.promoted.Some? ==> CarriesPromotion(s.row, s.promoted.value))
    && (Waiting(s.row.status) ==> (s.bare <==> s.holder == None && s.promoted == None))
    && (PreTrade(s.row.status) ==> !s.bare)
  }

  lemma WriteKeepsInv(s: State, e: Event, t: State)
    requires Inv(s) && Next(s, e, t) && e.Issue?
    ensures Inv(t)
  {
    WritesStayInTheirColumns(e.w, s.row);
  }

  lemma StepKeepsInv(s: State, e: Event, t: State)
    requires Inv(s) && Next(s, e, t)
    ensures Inv(t)
  {
    if e.Issue? { WriteKeepsInv(s, e, t); }
  }

  /** At most one write per reset leaves the window, and the row never blends
      two takers: it carries the last take admitted, whole, or before any take
      the last promotion, whole, also after a status swap. A waiting row carries
      neither if and only if its exit was a resume that met neither. */
  lemma OneExitPerReset(states: seq<State>, events: seq<Event>, k: nat)
    requires IsRun(Next, states, events) && Initial(states[0])
    requires k < |states|
    ensures states[k].exits <= 1
    ensures states[k].exits == 1 <==> states[k].row.status !in {Pending, WaitingTakerBond}
    ensures states[k].holder.Some? ==> CarriesTake(states[k].row, states[k].holder.value)
    ensures states[k].holder.None? && states[k].promoted.Some? ==>
      CarriesPromotion(states[k].row, states[k].promoted.value)
    ensures Waiting(states[k].row.status) ==> (states[k].bare <==> states[k].holder == states[k].promoted == None)
  {
    forall s, e, t | Inv(s) && Next(s, e, t) ensures Inv(t) {
      StepKeepsInv(s, e, t);
    }
    InvariantOnRun(Inv, Next, states, events, k);
  }

  predicate InvoiceWrite(e: Event) {
    e.Issue? && e.w.BuyerInvoice?
  }

  /** Until a reset, the row that left the window is frozen whatever is still
      in flight, a canceled one included, with exactly one exception: from
      `waiting-buyer-invoice` any `add_invoice` write, however stale its copy
      of the row, replaces the whole take and moves on to `waiting-payment`. */
  lemma {:induction false} RowFrozenAfterExit(states: seq<State>, events: seq<Event>, i: nat, j: nat)
    requires IsRun(Next, states, events)
    requires i <= j < |states|
    requires states[i].row.status !in {Pending, WaitingTakerBond}
    requires forall k :: i <= k < j ==> !events[k].Reset?
    ensures states[j].row == states[i].row <==>
      !(states[i].row.status == WaitingBuyerInvoice && exists k :: i <= k < j && InvoiceWrite(events[k]))
    ensures states[j].row != states[i].row ==> states[j].row.status == WaitingPayment
  {
    if i < j {
      RowFrozenAfterExit(states, events, i, j - 1);
      assert Next(states[j - 1], events[j - 1], states[j - 1 + 1]);
      if states[i].row.status == WaitingBuyerInvoice && InvoiceWrite(events[j - 1]) {
        WritesStayInTheirColumns(events[j - 1].w, states[j - 1].row);
      }
    }
  }

  // ---- The handlers as they run ----

  datatype PlainOutcome = NotAllowed | NotPublished | TooLate | Done

  /** The maker withdraws an order nobody holds yet. */
  method CancelPendingFromMaker(db: Db, id: OrderId, fromMaker: bool, event: Option<EventId>) returns (o: PlainOutcome)
    modifies db`orders
    ensures o == NotAllowed <==> !fromMaker
    ensures o == NotPublished <==> fromMaker && event.None?
    ensures o == Done <==>
      fromMaker && event.Some? && id in old(db.orders) && old(db.orders)[id].status in {Pending, WaitingTakerBond}
    ensures o != Done ==> db.orders == old(db.orders)
    ensures o == Done ==>
      && db.orders.Keys == old(db.orders).Keys
      && (forall x :: x in db.orders && x != id ==> db.orders[x] == old(db.orders)[x])
      && db.orders[id].status == Canceled && db.orders[id].eventId == event.value
      && BuyerSide(db.orders[id]) == BuyerSide(old(db.orders)[id])
      && SellerSide(db.orders[id]) == SellerSide(old(db.orders)[id])
      && SameTerms(db.orders[id], old(db.orders)[id]) && SameEscrow(db.orders[id], old(db.orders)[id])
      && SameElsewhere(db.orders[id], old(db.orders)[id])
  {
    if !fromMaker { return NotAllowed; }
    if event.None? { return NotPublished; }
    var won := db.CasPretradeOrderStatus(id, Canceled, event.value);
    return if won then Done else TooLate;
  }

  /** The taker's context as its bond carries it; amounts may be missing. */
  datatype Bond = Bond(taker: Side, invoice: Option<nat>, fiatAmount: Option<int>, amount: Option<int>,
                       fee: Option<int>, devFee: Option<int>)

  function Or(a: Option<int>, b: int): int {
    if a.Some? then a.value else b
  }

  /** The winning bond's context goes onto the order; `snapshot` is the copy of
      the row read before. Only the taker's side and the terms are written, and
      a maker cancel that came first is not undone. */
  method PromoteTakerContext(db: Db, id: OrderId, snapshot: Order, bond: Bond, now: int)
      returns (won: bool, order: Order)
    requires id in db.orders ==> db.orders[id].kind == snapshot.kind
    modifies db`orders
    ensures won <==> id in old(db.orders) && old(db.orders)[id].status in {Pending, WaitingTakerBond}
    ensures !won ==> db.orders == old(db.orders)
    ensures won ==>
      && db.orders.Keys == old(db.orders).Keys
      && (forall x :: x in db.orders && x != id ==> db.orders[x] == old(db.orders)[x])
      && var before, after := old(db.orders)[id], db.orders[id];
         && TakerSide(after.kind, after) == bond.taker && MakerSide(after.kind, after) == MakerSide(after.kind, before)
         && after.takenAt == now && after.createdAt == snapshot.createdAt
         && after.status == before.status && SameEscrow(after, before)
         && SameElsewhere(after, before)
         && after.amount == Or(bond.amount, snapshot.amount) && after.fee == Or(bond.fee, snapshot.fee)
         && after.devFee == Or(bond.devFee, snapshot.devFee)
         && after.fiatAmount == Or(bond.fiatAmount, snapshot.fiatAmount)
         && after.buyerInvoice == (if after.kind == Sell then bond.invoice else before.buyerInvoice)
    ensures order.kind == snapshot.kind && TakerSide(order.kind, order) == bond.taker
    ensures order.kind == Sell ==> order.buyerInvoice == bond.invoice
  {
    order := snapshot;
    if order.kind == Buy {
      order := order.(sellerKey := bond.taker.key, masterSellerKey := bond.taker.master,
        tradeIndexSeller := bond.taker.index);
    } else {
      order := order.(buyerKey := bond.taker.key, masterBuyerKey := bond.taker.master,
        tradeIndexBuyer := bond.taker.index);
      order := order.(buyerInvoice := bond.invoice);
    }
    order := order.(fiatAmount := Or(bond.fiatAmount, order.fiatAmount), amount := Or(bond.amount, order.amount));
    order := order.(fee := Or(bond.fee, order.fee), devFee := Or(bond.devFee, order.devFee), takenAt := now);
    won := db.CasPromoteTakerContext(id, order);
    WritesStayInTheirColumns(Promote(order), snapshot);
  }

  /** Where a take may start, and where only `add_invoice` may. */
  predicate MayTake(s: Status, fromAddInvoice: bool) {
    s in {Pending, WaitingTakerBond} || (fromAddInvoice && s == WaitingBuyerInvoice)
  }

  datatype HoldOutcome = LndFailed | PublishFailed | Committed | Orphaned(cancel: PaymentHash)

  /** `lnd`: the preimage and hash of the invoice LND created, if it did;
      `event`: the id of the published revision, if it was built. */
  method ShowHoldInvoice(db: Db, id: OrderId, snapshot: Order, paymentRequest: Option<nat>,
                         buyer: PubKey, seller: PubKey, lnd: Option<(nat, PaymentHash)>, event: Option<EventId>,
                         now: int, fromAddInvoice: bool) returns (outcome: HoldOutcome)
    modifies db`orders
    ensures !outcome.Committed? ==> db.orders == old(db.orders)
    ensures outcome.LndFailed? <==> lnd.None?
    ensures outcome.PublishFailed? <==> lnd.Some? && event.None?
    ensures outcome.Committed? <==>
      && lnd.Some? && event.Some?
      && id in old(db.orders) && MayTake(old(db.orders)[id].status, fromAddInvoice)
    ensures outcome.Committed? ==>
      && db.orders.Keys == old(db.orders).Keys
      && (forall x :: x in db.orders && x != id ==> db.orders[x] == old(db.orders)[x])
      && var row := db.orders[id];
         && row.status == WaitingPayment && row.eventId == event.value
         && CarriesTake(row, snapshot.(buyerKey := Some(buyer), sellerKey := Some(seller), takenAt := now,
                                       preimage := Some(lnd.value.0), hash := Some(lnd.value.1),
                                       buyerInvoice := if paymentRequest.Some? then paymentRequest
                                                       else snapshot.buyerInvoice))
         && SameElsewhere(row, old(db.orders)[id])
    ensures outcome.Orphaned? ==> lnd.Some? && outcome.cancel == lnd.value.1
    ensures outcome.Orphaned? <==>
      lnd.Some? && event.Some? && !(id in old(db.orders) && MayTake(old(db.orders)[id].status, fromAddInvoice))
  {
    if lnd.None? { return LndFailed; }
    var order := snapshot;
    if paymentRequest.Some? {
      order := order.(buyerInvoice := paymentRequest);
    }
    order := order.(preimage := Some(lnd.value.0), hash := Some(lnd.value.1), status := WaitingPayment, takenAt := now);
    order := order.(buyerKey := Some(buyer), sellerKey := Some(seller));
    if event.None? { return PublishFailed; }
    order := order.(eventId := event.value);
    var won := db.CasCompletePretradeTake(id, order, fromAddInvoice);
    if !won { return Orphaned(lnd.value.1); }
    return Committed;
  }

  /** A take goes on once its bond is locked; `order` is the promoted row. The
      seller's duty starts a new clock; the buyer's gets whatever anchor the
      row still has, the promotion's unless a reset has wiped it. An order that
      left the window meanwhile stays as it is. */
  method ResumeTakeAfterBond(db: Db, id: OrderId, order: Order, lnd: Option<(nat, PaymentHash)>,
                             event: Option<EventId>, now: int)
      returns (resumed: bool)
    modifies db`orders
    ensures resumed <==>
      && order.buyerKey.Some? && order.sellerKey.Some? && event.Some?
      && id in old(db.orders) && old(db.orders)[id].status in {Pending, WaitingTakerBond}
      && (lnd.Some? || (order.kind == Sell && order.buyerInvoice.None?))
    ensures !resumed ==> db.orders == old(db.orders)
    ensures resumed ==>
      && db.orders.Keys == old(db.orders).Keys
      && (forall x :: x in db.orders && x != id ==> db.orders[x] == old(db.orders)[x])
      && var before, after := old(db.orders)[id], db.orders[id];
         if order.kind == Sell && order.buyerInvoice.None?
         then && after.status == WaitingBuyerInvoice && DutyHolder(after.status) == Buyer
              && after.takenAt == before.takenAt
              && SameEscrow(after, before)
         else && after.status == WaitingPayment && DutyHolder(after.status) == Seller && after.takenAt == now
              && after.hash == Some(lnd.value.1) && after.buyerKey == order.buyerKey
              && after.sellerKey == order.sellerKey
  {
    if order.buyerKey.None? || order.sellerKey.None? { return false; }
    if order.kind == Sell && order.buyerInvoice.None? {
      if event.None? { return false; }
      resumed := db.CasPretradeOrderStatus(id, WaitingBuyerInvoice, event.value);
      return;
    }
    var paymentRequest := if order.kind == Sell then order.buyerInvoice else None;
    var outcome := ShowHoldInvoice(db, id, order, paymentRequest, order.buyerKey.value, order.sellerKey.value,
                                   lnd, event, now, false);
    return outcome.Committed?;
  }
}
