/** The life of a trade's hold invoice: LND events that may be late or
    replayed, restarts, the users' own moves, the guardian. Each delivery is
    one step. */
module HoldInvoice {
  import opened Orders
  import opened Database
  import opened Guardian
  import opened Timeouts
  import opened Runs

  // ---- The two LND event handlers ----

  /** What the paid flow meets: the reputation notice, the row update, and the
      separate write of `invoice_held_at`. */
  datatype PaidTurn = PaidTurn(now: int, notified: bool, rowWritten: bool, heldWritten: bool, eventId: EventId)

  predicate PaidApplies(row: Order) {
    Waiting(row.status) && row.invoiceHeldAt == 0 && row.buyerKey.Some? && row.sellerKey.Some?
  }

  /** The flow gets as far as its two writes. */
  predicate PaidWrites(row: Order, turn: PaidTurn) {
    PaidApplies(row) && (row.buyerInvoice.Some? || turn.notified)
  }

  /** The flow reaches its last write. */
  predicate PaidCompletes(row: Order, turn: PaidTurn) {
    PaidWrites(row, turn) && turn.heldWritten
  }

  /** The flow moved the order on and then lost the mark that it ran. */
  predicate MarkLost(row: Order, turn: PaidTurn) {
    PaidWrites(row, turn) && turn.rowWritten && !turn.heldWritten
  }

  function Paid(row: Order, turn: PaidTurn): Order {
    if !PaidWrites(row, turn) then row else
    var moved := if row.buyerInvoice.Some? then row.(status := Active)
                 else row.(status := WaitingBuyerInvoice, takenAt := turn.now);
    var written := if turn.rowWritten then moved.(eventId := turn.eventId) else row;
    if turn.heldWritten then written.(invoiceHeldAt := turn.now) else written
  }

  /** What a delivery of the payment does, column by column: the order goes to
      `active` if the buyer's invoice is known and otherwise asks for one on a
      new clock, and is marked; nothing else is written. */
  predicate Delivered(before: Order, after: Order, turn: PaidTurn) {
    if && before.status in {WaitingPayment, WaitingBuyerInvoice} && before.invoiceHeldAt == 0
       && before.buyerKey.Some? && before.sellerKey.Some? && (before.buyerInvoice.Some? || turn.notified)
    then && after.invoiceHeldAt == (if turn.heldWritten then turn.now else 0)
         && (turn.rowWritten && before.buyerInvoice.Some? ==> after.status == Active && after.takenAt == before.takenAt)
         && (turn.rowWritten && before.buyerInvoice.None? ==>
               after.status == WaitingBuyerInvoice && after.takenAt == turn.now)
         && (turn.rowWritten ==> after.eventId == turn.eventId)
         && (!turn.rowWritten ==> after.(invoiceHeldAt := 0) == before)
         && after.(status := before.status, takenAt := before.takenAt, eventId := before.eventId,
                   invoiceHeldAt := 0) == before
    else after == before
  }

  lemma PaidDelivers(row: Order, turn: PaidTurn)
    ensures Delivered(row, Paid(row, turn), turn)
  {
  }

  /** `add_invoice` on an order whose hold invoice already exists. */
  function Invoiced(row: Order, invoice: nat, eventId: EventId): Order {
    row.(status := Active, buyerInvoice := Some(invoice), eventId := eventId)
  }

  predicate CancelAlarms(row: Order, now: int, cltv: U32, margin: U32) {
    EscrowBacked(row.status) && DueByClock(now, row.invoiceHeldAt, cltv, margin)
  }

  function CanceledAtLnd(row: Order, now: int, cltv: U32, margin: U32, written: bool, eventId: EventId): Order {
    if CancelAlarms(row, now, cltv, margin) && row.status == Active && written
    then row.(status := Canceled, eventId := eventId)
    else row
  }

  // ---- The system around one order ----

  /** Where LND stands: no invoice yet, unpaid, locked, or gone (refunded or
      settled). */
  datatype Htlc = NoHold | Open | Locked | Gone

  datatype Closer = Nobody | Users | Daemon

  /** `paid`: the seller's payment arrived at some time; `flows`: completed
      runs of the paid flow for the current hold; `lost`: the last run that
      wrote anything lost its mark; `stale`: the row's mark is an earlier
      hold's; `watched`: a subscription is attached; `deaf`: the last attempt
      to attach one failed. */
  datatype State = State(
    now: int,
    row: Order,
    dispute: Option<DisputeRow>,
    htlc: Htlc,
    paid: bool,
    flows: nat,
    lost: bool,
    stale: bool,
    watched: bool,
    deaf: bool,
    closer: Closer)

  datatype Config = Config(cltv: U32, margin: U32)

  datatype Event =
    | Tick(now: int)
    | CreateHold(take: Order, fromAddInvoice: bool)
    | TakeWithoutInvoice(take: Order)
    | SellerPays
    | LndDrops
    | DeliverAccepted(turn: PaidTurn)
    | DeliverCanceled(config: Config, written: bool, eventId: EventId)
    | BuyerInvoice(invoice: nat, eventId: EventId)
    | SendFiat
    | RaiseDispute
    | Settle
    | CloseByUsers(status: Status, holdCanceled: bool)
    | TakerCancels(reset: bool, keysCleared: bool)
    | TimeOut(timeout: TimeoutTurn)
    | GuardianPass(config: Config, guard: Turn)
    | Restart(resubscribed: bool)

  predicate CanceledStatus(s: Status) {
    s == Canceled || s == CanceledByAdmin || s == CooperativelyCanceled
  }

  /** LND's answers are true: it reports a cancel as already done, or the HTLC
      as missing or past its expiry height, only once no HTLC is locked. */
  predicate Truthful(r: Report, htlc: Htlc) {
    r.cancel.AlreadyDone? || ChainShowsGone(r) ==> htlc != Locked
  }

  /** The order is back on the book and nothing of its hold is left. */
  function Fresh(s: State, row: Order): State {
    s.(row := row, htlc := NoHold, paid := false, flows := 0, lost := false, stale := false)
  }

  ghost predicate Next(s: State, e: Event, t: State) {
    match e
    case Tick(now) => s.now <= now && t == s.(now := now)
    case CreateHold(take, fromAddInvoice) =>
      && TakeAdmits(s.row.status, fromAddInvoice) && (s.row.status == WaitingBuyerInvoice ==> s.row.preimage.None?)
      && take.status == WaitingPayment && take.hash.Some? && take.preimage.Some? && take.takenAt == s.now
      && (s.row.kind == Sell ==> take.buyerInvoice.Some?)
      && t == s.(row := CasCompleteTake(s.row, take, fromAddInvoice), htlc := Open, paid := false, flows := 0,
                 lost := false, stale := s.row.invoiceHeldAt != 0, watched := true, deaf := false)
    case TakeWithoutInvoice(take) =>
      && PreTrade(s.row.status) && s.row.kind == Sell
      && take.status == WaitingBuyerInvoice && take.hash == s.row.hash && take.preimage == s.row.preimage
      && t == s.(row := CasCompleteTake(s.row, take, false))
    case SellerPays => s.htlc == Open && t == s.(htlc := Locked, paid := true)
    case LndDrops => (s.htlc == Open || s.htlc == Locked) && t == s.(htlc := Gone)
    case DeliverAccepted(turn) =>
      && s.paid && s.row.hash.Some? && turn.now == s.now
      && t == s.(row := Paid(s.row, turn), flows := if PaidCompletes(s.row, turn) then s.flows + 1 else s.flows,
                 lost := MarkLost(s.row, turn) || (s.lost && !PaidCompletes(s.row, turn)))
    case DeliverCanceled(config, written, eventId) =>
      && s.htlc == Gone && s.row.hash.Some?
      && var row := CanceledAtLnd(s.row, s.now, config.cltv, config.margin, written, eventId);
         t == s.(row := row, closer := if row.status != s.row.status then Daemon else s.closer)
    case BuyerInvoice(invoice, eventId) =>
      && s.row.status == WaitingBuyerInvoice && s.row.preimage.Some?
      && t == s.(row := Invoiced(s.row, invoice, eventId))
    case SendFiat => s.row.status == Active && t == s.(row := s.row.(status := FiatSent))
    case RaiseDispute =>
      && (s.row.status == Active || s.row.status == FiatSent)
      && t == s.(row := s.row.(status := Dispute))
    case Settle => EscrowBacked(s.row.status) && t == s.(row := s.row.(status := SettledHoldInvoice), htlc := Gone)
    case CloseByUsers(status, holdCanceled) =>
      && (PreTrade(s.row.status) || Waiting(s.row.status) || EscrowBacked(s.row.status)) && CanceledStatus(status)
      && t == s.(row := s.row.(status := status), closer := Users,
                 htlc := if holdCanceled && s.row.hash.Some? then Gone else s.htlc)
    case TakerCancels(reset, keysCleared) =>
      && (PreTrade(s.row.status) || Waiting(s.row.status))
      && t == if reset then Fresh(s, if keysCleared then ClearTakerKeys(Reopened(s.row)) else Reopened(s.row))
              else s.(htlc := if s.row.hash.Some? then Gone else s.htlc)
    case TimeOut(timeout) =>
      && Waiting(s.row.status)
      && var row := TimeoutBody(s.row, timeout);
         t == if row.status == Pending && timeout.reset then Fresh(s, row)
              else s.(row := row, closer := if row.status == Canceled then Users else s.closer,
                      htlc := if s.row.hash.Some? && timeout.holdCanceled then Gone else s.htlc)
    case GuardianPass(config, turn) =>
      && turn.now == s.now && Truthful(turn.report, s.htlc)
      && var r := GuardOrder(s.row, s.dispute, turn, config.cltv, config.margin);
         t == s.(row := r.row, dispute := r.dispute,
                 htlc := if r.cancelIssued && turn.report.cancel.CancelOk? then Gone else s.htlc,
                 closer := if r.row.status == Canceled && s.row.status != Canceled then Daemon else s.closer)
    case Restart(resubscribed) =>
      t == s.(watched := HeldInvoiceSelects(s.row) && resubscribed, deaf := !resubscribed)
  }

  ghost predicate Initial(s: State) {
    && PreTrade(s.row.status) && s.row.hash == None && s.row.preimage == None && s.row.invoiceHeldAt == 0
    && s.now > 0 && s.htlc == NoHold && !s.paid && s.flows == 0 && !s.lost && !s.stale && s.closer == Nobody
  }

  /** A hold LND has not let go of, on an order that still relies on it. */
  predicate LiveHold(s: State) {
    && (s.htlc == Open || s.htlc == Locked)
    && s.row.status in {WaitingPayment, WaitingBuyerInvoice, Active, FiatSent, Dispute} && s.row.hash.Some?
  }

  /** On a sell order the buyer's invoice comes before the hold. */
  predicate SellInv(row: Order) {
    && (row.hash.Some? ==> row.buyerInvoice.Some?)
    && (PreTrade(row.status) || row.status == WaitingBuyerInvoice ==> row.hash == None)
  }

  ghost predicate Inv(s: State) {
    && s.now > 0
    && (s.row.hash.Some? <==> s.row.preimage.Some?)
    && (s.row.kind == Sell ==> SellInv(s.row))
    && (s.row.hash == None ==> s.row.invoiceHeldAt == 0 && s.htlc == NoHold)
    && (s.row.invoiceHeldAt != 0 <==> s.flows == 1 || s.stale) && s.flows <= 1 && !(s.flows == 1 && s.stale)
    && (s.stale ==> !EscrowBacked(s.row.status) && s.row.status != WaitingBuyerInvoice)
    && (EscrowBacked(s.row.status) ==>
          (s.row.invoiceHeldAt == 0 <==> s.lost) && s.row.buyerInvoice.Some? && s.row.hash.Some?)
    && (s.row.status == WaitingBuyerInvoice && s.row.hash.Some? ==> (s.row.invoiceHeldAt == 0 <==> s.lost))
    && (s.lost ==> s.paid && s.row.invoiceHeldAt == 0)
    && (s.flows == 1 ==> s.paid)
    && (s.paid ==> s.htlc == Locked || s.htlc == Gone)
    && (HeldInvoiceSelects(s.row) ==> (s.watched <==> !s.deaf))
    && (s.closer == Daemon ==> s.row.status == Canceled && s.htlc == Gone)
  }

  lemma TakeKeepsInv(s: State, e: Event, t: State)
    requires Inv(s) && Next(s, e, t) && (e.CreateHold? || e.TakeWithoutInvoice?)
    ensures Inv(t)
  {
  }

  lemma DeliveryKeepsInv(s: State, e: Event, t: State)
    requires Inv(s) && Next(s, e, t) && (e.DeliverAccepted? || e.DeliverCanceled?)
    ensures Inv(t)
  {
  }

  lemma GuardianKeepsInv(s: State, e: Event, t: State)
    requires Inv(s) && Next(s, e, t) && e.GuardianPass?
    ensures Inv(t)
  {
  }

  lemma FreshKeepsInv(s: State, row: Order)
    requires Inv(s) && Unheld(row) && row.kind == s.row.kind && s.closer != Daemon
    ensures Inv(Fresh(s, row))
  {
  }

  /** A write that leaves the row's hold alone and at most closes or reopens
      the order. */
  lemma SameHoldKeepsInv(s: State, row: Order, htlc: Htlc, closer: Closer)
    requires Inv(s) && SameHold(row, s.row)
    requires htlc == s.htlc || (htlc == Gone && s.row.hash.Some?)
    requires row.status == s.row.status || CanceledStatus(row.status) || (row.status == Pending && TakerDefaults(s.row))
    requires closer == s.closer || closer == Users
    requires closer == Daemon ==> row.status == s.row.status
    ensures Inv(s.(row := row, htlc := htlc, closer := closer))
  {
  }

  lemma NotYetClosed(s: State)
    requires Inv(s) && (PreTrade(s.row.status) || Waiting(s.row.status) || EscrowBacked(s.row.status))
    ensures s.closer != Daemon
  {
  }

  lemma TimeOutKeepsInv(s: State, e: Event, t: State)
    requires Inv(s) && Next(s, e, t) && e.TimeOut?
    ensures Inv(t)
  {
    NotYetClosed(s);
    TimeoutAndHold(s.row, e.timeout);
    if t.row.status == Pending && e.timeout.reset {
      FreshKeepsInv(s, t.row);
    } else {
      SameHoldKeepsInv(s, t.row, t.htlc, t.closer);
    }
  }

  lemma UsersKeepInv(s: State, e: Event, t: State)
    requires Inv(s) && Next(s, e, t) && (e.CloseByUsers? || e.TakerCancels?)
    ensures Inv(t)
  {
    NotYetClosed(s);
    if e.TakerCancels? && e.reset {
      FreshKeepsInv(s, t.row);
    } else {
      SameHoldKeepsInv(s, t.row, t.htlc, t.closer);
    }
  }

  predicate StepsAlone(e: Event) {
    || e.CreateHold? || e.TakeWithoutInvoice? || e.DeliverAccepted? || e.DeliverCanceled? || e.GuardianPass?
    || e.TimeOut? || e.CloseByUsers? || e.TakerCancels?
  }

  lemma OtherStepKeepsInv(s: State, e: Event, t: State)
    requires Inv(s) && Next(s, e, t) && !StepsAlone(e)
    ensures Inv(t)
  {
  }

  lemma StepKeepsInv(s: State, e: Event, t: State)
    requires Inv(s) && Next(s, e, t)
    ensures Inv(t)
  {
    if e.CreateHold? || e.TakeWithoutInvoice? { TakeKeepsInv(s, e, t); }
    else if e.DeliverAccepted? || e.DeliverCanceled? { DeliveryKeepsInv(s, e, t); }
    else if e.GuardianPass? { GuardianKeepsInv(s, e, t); }
    else if e.TimeOut? { TimeOutKeepsInv(s, e, t); }
    else if e.CloseByUsers? || e.TakerCancels? { UsersKeepInv(s, e, t); }
    else { OtherStepKeepsInv(s, e, t); }
  }

  lemma RunKeepsInv(states: seq<State>, events: seq<Event>, k: nat)
    requires IsRun(Next, states, events) && Initial(states[0])
    requires k < |states|
    ensures Inv(states[k])
  {
    forall s, e, t | Inv(s) && Next(s, e, t) ensures Inv(t) {
      StepKeepsInv(s, e, t);
    }
    InvariantOnRun(Inv, Next, states, events, k);
  }

  /** However often LND replays the event, wherever the flow fails and however
      often the daemon restarts, the paid flow completes at most once per hold.
      An escrow-backed order was paid for and has somewhere to pay the buyer;
      it had the flow complete unless the flow's mark was lost. */
  lemma PaidFlowOnce(states: seq<State>, events: seq<Event>, k: nat)
    requires IsRun(Next, states, events) && Initial(states[0])
    requires k < |states|
    ensures states[k].flows <= 1
    ensures states[k].row.status in {Active, FiatSent, Dispute} ==>
      && (states[k].flows == 1 <==> !states[k].lost)
      && states[k].paid && states[k].row.buyerInvoice.Some?
  {
    RunKeepsInv(states, events, k);
  }

  /** Who brings an order into a status, in every run. */
  ghost predicate MovedBy(s: State, e: Event, t: State) {
    match t.row.status
    case WaitingPayment => e.CreateHold?
    case WaitingBuyerInvoice => e.TakeWithoutInvoice? || (e.DeliverAccepted? && s.row.buyerInvoice.None?)
    case Active =>
      || (e.DeliverAccepted? && s.row.buyerInvoice.Some?)
      || (e.BuyerInvoice? && s.row.status == WaitingBuyerInvoice)
    case FiatSent => e.SendFiat? && s.row.status == Active
    case Dispute =>
      || (e.RaiseDispute? && s.row.status in {Active, FiatSent})
      || (e.GuardianPass? && s.row.status == FiatSent)
    case SettledHoldInvoice => e.Settle? && s.row.status in {Active, FiatSent, Dispute}
    case Pending => e.TakerCancels? || (e.TimeOut? && s.row.status in {WaitingPayment, WaitingBuyerInvoice})
    case Canceled =>
      || e.CloseByUsers? || (e.TimeOut? && s.row.status in {WaitingPayment, WaitingBuyerInvoice})
      || ((e.GuardianPass? || e.DeliverCanceled?) && s.row.status == Active)
    case CanceledByAdmin => e.CloseByUsers?
    case CooperativelyCanceled => e.CloseByUsers?
    case _ => false
  }

  lemma TimeOutMoves(s: State, e: Event, t: State)
    requires Inv(s) && Next(s, e, t) && e.TimeOut? && t.row.status != s.row.status
    ensures MovedBy(s, e, t)
  {
    TimeoutAndHold(s.row, e.timeout);
  }

  lemma DeliveryMoves(s: State, e: Event, t: State)
    requires Inv(s) && Next(s, e, t) && (e.DeliverAccepted? || e.DeliverCanceled?) && t.row.status != s.row.status
    ensures MovedBy(s, e, t)
  {
  }

  lemma GuardianMoves(s: State, e: Event, t: State)
    requires Inv(s) && Next(s, e, t) && e.GuardianPass? && t.row.status != s.row.status
    ensures MovedBy(s, e, t)
  {
  }

  lemma TakeMoves(s: State, e: Event, t: State)
    requires Inv(s) && Next(s, e, t) && (e.CreateHold? || e.TakeWithoutInvoice?) && t.row.status != s.row.status
    ensures MovedBy(s, e, t)
  {
  }

  lemma UsersMove(s: State, e: Event, t: State)
    requires Inv(s) && Next(s, e, t) && e.CloseByUsers? && t.row.status != s.row.status
    ensures MovedBy(s, e, t)
  {
  }

  lemma TakerMoves(s: State, e: Event, t: State)
    requires Inv(s) && Next(s, e, t) && e.TakerCancels? && t.row.status != s.row.status
    ensures MovedBy(s, e, t)
  {
    assert e.reset && t.row.status == Pending;
  }

  lemma OtherMoves(s: State, e: Event, t: State)
    requires Inv(s) && Next(s, e, t) && t.row.status != s.row.status && !StepsAlone(e)
    ensures MovedBy(s, e, t)
  {
  }

  /** No status is reached but by the event that stands for it: no trade becomes
      `active` unpaid or `fiat-sent` without the buyer saying so, and none is
      settled, disputed or closed by anyone else. */
  lemma StatusMoves(states: seq<State>, events: seq<Event>, k: nat)
    requires IsRun(Next, states, events) && Initial(states[0])
    requires k < |events| && states[k + 1].row.status != states[k].row.status
    ensures MovedBy(states[k], events[k], states[k + 1])
    ensures states[k + 1].row.status == Active ==> states[k].paid
  {
    RunKeepsInv(states, events, k);
    RunKeepsInv(states, events, k + 1);
    var s, e, t := states[k], events[k], states[k + 1];
    if e.TimeOut? { TimeOutMoves(s, e, t); }
    else if e.DeliverAccepted? || e.DeliverCanceled? { DeliveryMoves(s, e, t); }
    else if e.GuardianPass? { GuardianMoves(s, e, t); }
    else if e.CreateHold? || e.TakeWithoutInvoice? { TakeMoves(s, e, t); }
    else if e.CloseByUsers? { UsersMove(s, e, t); }
    else if e.TakerCancels? { TakerMoves(s, e, t); }
    else { OtherMoves(s, e, t); }
    assert Next(s, e, t);
  }

  /** A selected order is watched unless the last resubscription failed. And a
      live hold is selected for resubscription exactly unless the flow's mark
      was lost on an order that has become escrow-backed. */
  lemma LiveHoldWatched(states: seq<State>, events: seq<Event>, k: nat)
    requires IsRun(Next, states, events) && Initial(states[0])
    requires k < |states|
    ensures HeldInvoiceSelects(states[k].row) ==> (states[k].watched <==> !states[k].deaf)
    ensures HeldInvoiceSelects(states[k].row) ==>
      && states[k].row.hash.Some?
      && states[k].row.status in {WaitingPayment, WaitingBuyerInvoice, Active, FiatSent, Dispute}
    ensures LiveHold(states[k]) ==>
      (HeldInvoiceSelects(states[k].row) <==>
        !(states[k].row.status in {Active, FiatSent, Dispute} && states[k].lost))
  {
    RunKeepsInv(states, events, k);
  }

  /** An order that waits for a payment while its row carries a mark: the mark
      keeps every delivery away, so only its users or the timeout move it. */
  predicate Uncredited(row: Order) {
    row.status == WaitingPayment && row.invoiceHeldAt != 0
  }

  /** An order on the book that still carries the mark of an earlier hold. */
  predicate Mismarked(row: Order) {
    PreTrade(row.status) && row.invoiceHeldAt != 0
  }

  /** The delivery writes the mark and loses the row. */
  predicate CreditLost(row: Order, e: Event) {
    && e.DeliverAccepted? && row.status == WaitingPayment
    && PaidWrites(row, e.turn) && !e.turn.rowWritten && e.turn.heldWritten
  }

  lemma DeliveryCredits(s: State, e: Event, t: State)
    requires Inv(s) && Next(s, e, t) && e.DeliverAccepted?
    ensures Uncredited(s.row) ==> t.row == s.row
    ensures !Uncredited(s.row) ==> (Uncredited(t.row) <==> CreditLost(s.row, e))
    ensures Mismarked(t.row) ==> t.row == s.row
  {
  }

  lemma TimeOutCredits(s: State, e: Event, t: State)
    requires Inv(s) && Next(s, e, t) && e.TimeOut?
    ensures Uncredited(t.row) ==> Uncredited(s.row)
    ensures Mismarked(t.row) <==>
      Uncredited(s.row) && s.row.kind == Buy && Proceeds(s.row, e.timeout) && !e.timeout.reset && AllWritten(e.timeout)
  {
    TimeoutAndHold(s.row, e.timeout);
    var after := TimeoutBody(s.row, e.timeout);
    assert t.row == after;
  }

  lemma TakeCredits(s: State, e: Event, t: State)
    requires Inv(s) && Next(s, e, t) && (e.CreateHold? || e.TakeWithoutInvoice?)
    ensures !Uncredited(s.row) && !Mismarked(t.row)
    ensures Uncredited(t.row) <==> e.CreateHold? && Mismarked(s.row)
  {
  }

  lemma GuardianCredits(s: State, e: Event, t: State)
    requires Inv(s) && Next(s, e, t) && e.GuardianPass?
    ensures Uncredited(s.row) ==> t.row == s.row
    ensures !Uncredited(s.row) ==> !Uncredited(t.row)
    ensures Mismarked(t.row) ==> Mismarked(s.row)
  {
  }

  lemma UsersCredit(s: State, e: Event, t: State)
    requires Inv(s) && Next(s, e, t) && (e.CloseByUsers? || e.TakerCancels?)
    ensures !Uncredited(s.row) ==> !Uncredited(t.row)
    ensures Mismarked(t.row) ==> Mismarked(s.row)
  {
  }

  lemma OtherStepCredits(s: State, e: Event, t: State)
    requires Inv(s) && Next(s, e, t)
    requires e.DeliverCanceled? || !StepsAlone(e)
    ensures Uncredited(s.row) ==> t.row == s.row
    ensures !Uncredited(s.row) ==> !Uncredited(t.row)
    ensures Mismarked(t.row) ==> Mismarked(s.row)
  {
  }

  /** There are exactly two ways in: a delivery that wrote the mark but not the
      row, and a take of an order that still carried an earlier hold's mark.
      Then the order stays until its users or the timeout close it. */
  lemma UncreditedUntilClosed(states: seq<State>, events: seq<Event>, k: nat)
    requires IsRun(Next, states, events) && Initial(states[0])
    requires k < |events|
    ensures Uncredited(states[k].row) ==>
      && (states[k].stale || (states[k].paid && states[k].flows == 1))
      && (|| states[k + 1].row == states[k].row
          || events[k].CloseByUsers? || events[k].TakerCancels? || events[k].TimeOut?)
    ensures !Uncredited(states[k].row) ==>
      (Uncredited(states[k + 1].row) <==>
        CreditLost(states[k].row, events[k]) || (events[k].CreateHold? && Mismarked(states[k].row)))
  {
    RunKeepsInv(states, events, k);
    CreditStep(states, events, k);
  }

  /** And an order gets back on the book with the mark exactly when the timeout
      reopens such an order while its reset fails. */
  lemma MismarkedIff(states: seq<State>, events: seq<Event>, k: nat)
    requires IsRun(Next, states, events) && Initial(states[0])
    requires k < |events| && !Mismarked(states[k].row)
    ensures Mismarked(states[k + 1].row) <==>
      && events[k].TimeOut? && Uncredited(states[k].row) && states[k].row.kind == Buy
      && Proceeds(states[k].row, events[k].timeout) && !events[k].timeout.reset && AllWritten(events[k].timeout)
  {
    CreditStep(states, events, k);
  }

  lemma CreditStep(states: seq<State>, events: seq<Event>, k: nat)
    requires IsRun(Next, states, events) && Initial(states[0])
    requires k < |events|
    ensures var s, e, t := states[k], events[k], states[k + 1];
      && (Uncredited(s.row) ==> t.row == s.row || e.CloseByUsers? || e.TakerCancels? || e.TimeOut?)
      && (!Uncredited(s.row) ==>
            (Uncredited(t.row) <==> CreditLost(s.row, e) || (e.CreateHold? && Mismarked(s.row))))
      && (!Mismarked(s.row) ==>
            (Mismarked(t.row) <==>
              && e.TimeOut? && Uncredited(s.row) && s.row.kind == Buy
              && Proceeds(s.row, e.timeout) && !e.timeout.reset && AllWritten(e.timeout)))
  {
    RunKeepsInv(states, events, k);
    var s, e, t := states[k], events[k], states[k + 1];
    if e.DeliverAccepted? { DeliveryCredits(s, e, t); }
    else if e.TimeOut? { TimeOutCredits(s, e, t); }
    else if e.CreateHold? || e.TakeWithoutInvoice? { TakeCredits(s, e, t); }
    else if e.GuardianPass? { GuardianCredits(s, e, t); }
    else if e.CloseByUsers? || e.TakerCancels? { UsersCredit(s, e, t); }
    else { OtherStepCredits(s, e, t); }
  }

  lemma CanceledStays(s: State, e: Event, t: State)
    requires Next(s, e, t) && CanceledStatus(s.row.status)
    ensures t.row == s.row
  {
  }

  /** No later event, however late, brings a canceled order back. */
  lemma {:induction false} CanceledForGood(states: seq<State>, events: seq<Event>, i: nat, j: nat)
    requires IsRun(Next, states, events)
    requires i <= j < |states| && CanceledStatus(states[i].row.status)
    ensures states[j].row == states[i].row
  {
    if i < j {
      CanceledForGood(states, events, i, j - 1);
      CanceledStays(states[j - 1], events[j - 1], states[j - 1 + 1]);
    }
  }

  /** What a step of the daemon may do to an order: nothing, close it while
      `active` with no HTLC left, or move it to a live dispute with the hold
      untouched; and nothing to an order whose mark was lost. */
  ghost predicate SafeStep(s: State, t: State) {
    && (|| t.row.status == s.row.status
        || (s.row.status == Active && t.row.status == Canceled && t.htlc == Gone)
        || (&& s.row.status == FiatSent && t.row.status == Dispute && t.htlc == s.htlc
            && t.dispute.Some? && Live(t.dispute.value)))
    && (s.lost ==> t.row == s.row)
  }

  ghost predicate ClosesIff(s: State, config: Config, turn: Turn, t: State) {
    t.row.status == Canceled <==>
      && DeadlineSelects(s.row, Cutoff(turn.now, config.cltv, config.margin))
      && DueNow(s.row.invoiceHeldAt, turn.now, turn.report, config.cltv, config.margin)
      && ConfirmedGone(turn.report)
      && turn.published && turn.persisted
  }

  lemma GuardianSafeStep(s: State, e: Event, t: State)
    requires Inv(s) && Next(s, e, t) && e.GuardianPass?
    ensures SafeStep(s, t)
    ensures s.row.status == Active ==> ClosesIff(s, e.config, e.guard, t)
  {
    GuardianKeepsInv(s, e, t);
  }

  lemma ReactiveSafeStep(s: State, e: Event, t: State)
    requires Inv(s) && Next(s, e, t) && e.DeliverCanceled?
    ensures SafeStep(s, t)
  {
  }

  /** Whenever the guardian or the reactive path closed the order, no HTLC is
      left locked behind it, and each of their steps is safe. The guardian
      closes an `active` order exactly if it is due and the escrow is confirmed
      gone, so never by the clock alone. */
  lemma DaemonClosesSafely(states: seq<State>, events: seq<Event>, k: nat)
    requires IsRun(Next, states, events) && Initial(states[0])
    requires k < |states|
    ensures states[k].closer == Daemon ==> states[k].row.status == Canceled && states[k].htlc == Gone
    ensures k < |events| && (events[k].GuardianPass? || events[k].DeliverCanceled?) ==>
      SafeStep(states[k], states[k + 1])
    ensures k < |events| && events[k].GuardianPass? && states[k].row.status == Active ==>
      ClosesIff(states[k], events[k].config, events[k].guard, states[k + 1])
  {
    RunKeepsInv(states, events, k);
    if k < |events| {
      if events[k].GuardianPass? { GuardianSafeStep(states[k], events[k], states[k + 1]); }
      if events[k].DeliverCanceled? { ReactiveSafeStep(states[k], events[k], states[k + 1]); }
    }
  }

  // ---- The handlers as they run ----

  datatype Outcome = NotFound | Ignored | HandlerFailed | Done

  method HoldInvoicePaid(db: Db, hash: PaymentHash, turn: PaidTurn) returns (outcome: Outcome, id: OrderId)
    modifies db`orders
    ensures outcome == NotFound <==> forall x :: x in old(db.orders) ==> old(db.orders)[x].hash != Some(hash)
    ensures outcome == NotFound ==> db.orders == old(db.orders)
    ensures outcome != NotFound ==>
      && id in old(db.orders) && old(db.orders)[id].hash == Some(hash)
      && db.orders == old(db.orders)[id := Paid(old(db.orders)[id], turn)]
      && Delivered(old(db.orders)[id], db.orders[id], turn)
    ensures outcome == Done <==> outcome != NotFound && PaidCompletes(old(db.orders)[id], turn)
  {
    outcome, id := NotFound, 0;
    var found := db.FindOrderByHash(hash);
    if found.None? { return; }
    id := found.value;
    PaidDelivers(db.orders[id], turn);
    var order := db.orders[id];
    if !Waiting(order.status) || order.invoiceHeldAt != 0 {
      outcome := Ignored;
      return;
    }
    if order.buyerKey.None? || order.sellerKey.None? {
      outcome := HandlerFailed;
      return;
    }
    var status := Active;
    if order.buyerInvoice.None? {
      status := WaitingBuyerInvoice;
      order := order.(takenAt := turn.now);
      if !turn.notified {
        outcome := HandlerFailed;
        return;
      }
    }
    if turn.rowWritten {
      var _ := db.Update(id, order.(status := status, eventId := turn.eventId));
    }
    if !turn.heldWritten {
      outcome := HandlerFailed;
      return;
    }
    var _ := db.UpdateOrderInvoiceHeldAt(id, turn.now);
    outcome := Done;
  }

  /** `written`: the cancel could be published and persisted. The alarm goes to
      whichever party is known; only an `active` order is closed. */
  method HoldInvoiceCanceled(db: Db, hash: PaymentHash, now: int, cltv: U32, margin: U32, written: bool,
                             eventId: EventId)
      returns (id: Option<OrderId>, notified: set<PubKey>)
    modifies db`orders
    ensures id == None <==> forall x :: x in old(db.orders) ==> old(db.orders)[x].hash != Some(hash)
    ensures id == None ==> notified == {} && db.orders == old(db.orders)
    ensures id.Some? ==>
      && id.value in old(db.orders) && id.value in db.orders && old(db.orders)[id.value].hash == Some(hash)
      && var row := old(db.orders)[id.value];
         var deadline := row.invoiceHeldAt + 600 * GuardBlocks(cltv, margin);
         var lost := row.status in {Active, FiatSent, Dispute} && row.invoiceHeldAt != 0 && now >= deadline;
         && db.orders == old(db.orders)[id.value := db.orders[id.value]]
         && db.orders[id.value] == (if lost && row.status == Active && written
                                    then row.(status := Canceled, eventId := eventId) else row)
         && forall k :: k in notified <==> lost && (row.buyerKey == Some(k) || row.sellerKey == Some(k))
  {
    notified := {};
    id := db.FindOrderByHash(hash);
    if id.None? { return; }
    var order := db.orders[id.value];
    if !CancelAlarms(order, now, cltv, margin) { return; }
    if order.buyerKey.Some? { notified := notified + {order.buyerKey.value}; }
    if order.sellerKey.Some? { notified := notified + {order.sellerKey.value}; }
    if order.status == Active && written {
      var _ := db.Update(id.value, order.(status := Canceled, eventId := eventId));
    }
  }
}
