/** What the waiting-duty timeout does to one order, wherever it fails. */
module Timeouts {
  import opened Orders

  /** What the job meets at one order: the hold canceled at LND, the bond
      decided, and which of its writes went through. */
  datatype TimeoutTurn = TimeoutTurn(
    now: int, holdCanceled: bool, bondDecided: bool,
    reset: bool, keysCleared: bool, published: bool, persisted: bool, eventId: EventId)

  /** Forget the taker's keys, then publish and persist the new status. */
  function Conclude(row: Order, status: Status, turn: TimeoutTurn): Order {
    if !turn.keysCleared then row
    else if !turn.published || !turn.persisted then ClearTakerKeys(row)
    else ClearTakerKeys(row).(status := status, eventId := turn.eventId)
  }

  function TimeoutBody(row: Order, turn: TimeoutTurn): Order
    requires Waiting(row.status)
  {
    if (row.hash.Some? && !turn.holdCanceled) || !turn.bondDecided then row else
    match (row.status, row.kind)
    case (WaitingBuyerInvoice, Sell) | (WaitingPayment, Buy) =>
      Conclude(if turn.reset then Reopened(row) else row, Pending, turn)
    case _ =>
      Conclude(row, Canceled, turn)
  }

  /** A market-priced order loses the amount computed for the failed take. */
  function Reopened(row: Order): Order {
    if row.priceFromApi then ResetToInitial(row, 0, 0, 0) else ResetToInitial(row, row.amount, row.fee, 0)
  }

  /** An order leaves the waiting set only once its hold invoice is canceled
      and the bond decision made, and then as the blame demands: back on the
      book if the taker defaulted, canceled if the maker did. */
  lemma TimeoutVerdict(row: Order, turn: TimeoutTurn)
    requires Waiting(row.status)
    ensures var after := TimeoutBody(row, turn);
      && (!Waiting(after.status) ==> (row.hash == None || turn.holdCanceled) && turn.bondDecided)
      && (after.status == Pending ==> DutyHolder(row.status) != Maker(row.kind))
      && (after.status == Canceled ==> DutyHolder(row.status) == Maker(row.kind))
      && (Waiting(after.status) ==> after.status == row.status && after.takenAt == row.takenAt)
  {
  }

  /** A timeout never touches the maker's side, and once all its writes went
      through leaves neither key of the taker. */
  lemma TimeoutCleansRow(row: Order, turn: TimeoutTurn)
    requires Waiting(row.status)
    ensures var after := TimeoutBody(row, turn);
      && MakerSide(row.kind, after) == MakerSide(row.kind, row)
      && (!Waiting(after.status) && turn.keysCleared && turn.published && turn.persisted ==>
            && TakerSide(row.kind, after).key == TakerSide(row.kind, after).master == None
            && after.eventId == turn.eventId)
  {
  }

  /** An order put back on the book carries nothing of the failed trade's
      escrow, and a market-priced amount is open again. */
  lemma RepublishedRowIsInitial(row: Order, turn: TimeoutTurn)
    requires Waiting(row.status)
    ensures var after := TimeoutBody(row, turn);
      after.status == Pending && turn.reset ==>
        && after.hash == None && after.preimage == None && after.buyerInvoice == None
        && after.invoiceHeldAt == 0 && after.takenAt == 0 && after.devFee == 0
        && after.amount == (if row.priceFromApi then 0 else row.amount)
        && after.fee == (if row.priceFromApi then 0 else row.fee)
  {
    if row.kind == Buy {
      assert ClearTakerKeys(Reopened(row)).hash == None;
    } else {
      assert ClearTakerKeys(Reopened(row)).hash == None;
    }
  }

  /** The columns that tie a row to its hold. */
  predicate SameHold(a: Order, b: Order) {
    && a.kind == b.kind && a.hash == b.hash && a.preimage == b.preimage
    && a.invoiceHeldAt == b.invoiceHeldAt && a.buyerInvoice == b.buyerInvoice
  }

  /** The row is on the book with nothing of a hold. */
  predicate Unheld(row: Order) {
    row.status == Pending && row.hash == None && row.preimage == None && row.invoiceHeldAt == 0
  }

  predicate TakerDefaults(row: Order) {
    (row.status == WaitingBuyerInvoice && row.kind == Sell) || (row.status == WaitingPayment && row.kind == Buy)
  }

  /** The job got as far as its writes. */
  predicate Proceeds(row: Order, turn: TimeoutTurn) {
    (row.hash == None || turn.holdCanceled) && turn.bondDecided
  }

  predicate AllWritten(turn: TimeoutTurn) {
    turn.keysCleared && turn.published && turn.persisted
  }

  /** A timeout either resets the row's hold whole or leaves it whole. */
  lemma TimeoutAndHold(row: Order, turn: TimeoutTurn)
    requires Waiting(row.status)
    ensures var after := TimeoutBody(row, turn);
      && after.kind == row.kind
      && (if Proceeds(row, turn) && TakerDefaults(row) && turn.reset then Unheld(after) else SameHold(after, row))
      && (after.status == Pending <==> Proceeds(row, turn) && TakerDefaults(row) && (turn.reset || AllWritten(turn)))
      && (after.status == Canceled <==> Proceeds(row, turn) && !TakerDefaults(row) && AllWritten(turn))
      && (after.status != Pending && after.status != Canceled ==> after.status == row.status)
  {
    if TakerDefaults(row) {
      ConcludeAndHold(if turn.reset then Reopened(row) else row, Pending, turn);
    } else {
      ConcludeAndHold(row, Canceled, turn);
    }
  }

  lemma ConcludeAndHold(row: Order, status: Status, turn: TimeoutTurn)
    ensures SameHold(Conclude(row, status, turn), row)
    ensures Conclude(row, status, turn).status == (if AllWritten(turn) then status else row.status)
  {
    KeysAndHold(row);
    var cleared := ClearTakerKeys(row);
    assert SameHold(cleared.(status := status, eventId := turn.eventId), cleared);
  }

  lemma KeysAndHold(row: Order)
    ensures SameHold(ClearTakerKeys(row), row) && ClearTakerKeys(row).status == row.status
  {
  }
}
