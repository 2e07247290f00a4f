/** The escrow-deadline guardian: block-height arithmetic, one pass over the
    due orders, and the dispute it opens when the fiat may have moved. */
module Guardian {
  import opened Orders
  import opened Database

  type U32 = n: nat | n < 0x1_0000_0000

  const SECS_PER_BLOCK: int := 600

  // ---- Deadlines ----

  /** Seconds from the escrow payment to the guardian's action; a margin that
      swallows the whole window is clamped to half of it. */
  function GuardWindow(cltv: U32, margin: U32): (secs: int)
    ensures 0 <= secs <= cltv * SECS_PER_BLOCK
    ensures secs == 0 <==> cltv == 0
  {
    var effective := if margin >= cltv then cltv / 2 else margin;
    (cltv - effective) * SECS_PER_BLOCK
  }

  function ActionDeadline(heldAt: int, cltv: U32, margin: U32): Option<int> {
    if heldAt == 0 then None else Some(heldAt + GuardWindow(cltv, margin))
  }

  function Cutoff(now: int, cltv: U32, margin: U32): int {
    now - GuardWindow(cltv, margin) / 2
  }

  function SaturatingAdd(a: U32, b: U32): U32 {
    if a + b < 0x1_0000_0000 then a + b else 0xFFFF_FFFF
  }

  predicate DueByHeight(chain: U32, margin: U32, expiry: U32) {
    SaturatingAdd(chain, margin) >= expiry
  }

  predicate DueByClock(now: int, heldAt: int, cltv: U32, margin: U32) {
    var deadline := ActionDeadline(heldAt, cltv, margin);
    deadline.Some? && now >= deadline.value
  }

  /** A payment held since `heldAt`, at height `start`, whose HTLC lives at
      least `cltv` blocks, on a chain with at most one block per 300 seconds. */
  predicate PlausibleChain(now: int, heldAt: int, start: U32, chain: U32, expiry: U32, cltv: U32) {
    && heldAt != 0 && heldAt <= now
    && start <= chain && 300 * (chain - start) <= now - heldAt
    && start + cltv <= expiry
  }

  /** No order that is due, by height or by the nominal clock, is missed by
      the half-window query. */
  ghost predicate PrefilterSound(cltv: U32, margin: U32) {
    forall row: Order, now, start, chain, expiry ::
      && Guarded(row) && PlausibleChain(now, row.invoiceHeldAt, start, chain, expiry, cltv)
      && (DueByHeight(chain, margin, expiry) || DueByClock(now, row.invoiceHeldAt, cltv, margin))
      ==> DeadlineSelects(row, Cutoff(now, cltv, margin))
  }

  predicate Guarded(row: Order) {
    (row.status == Active || row.status == FiatSent) && row.hash.Some?
  }

  /** Exactly the configurations whose margin is not clamped are sound: the
      due test keeps using the raw margin. */
  lemma PrefilterSoundIff(cltv: U32, margin: U32)
    ensures PrefilterSound(cltv, margin) <==> margin < cltv || cltv == 0
  {
    if margin < cltv || cltv == 0 {
      forall row: Order, now, start, chain, expiry
        | Guarded(row) && PlausibleChain(now, row.invoiceHeldAt, start, chain, expiry, cltv)
          && (DueByHeight(chain, margin, expiry) || DueByClock(now, row.invoiceHeldAt, cltv, margin))
        ensures DeadlineSelects(row, Cutoff(now, cltv, margin))
      {
        WindowIsReached(now, row.invoiceHeldAt, start, chain, expiry, cltv, margin);
      }
    } else {
      var row: Order := *;
      row := row.(status := Active, hash := Some(0), invoiceHeldAt := 1);
      assert Guarded(row) && PlausibleChain(1, row.invoiceHeldAt, 0, 0, cltv, cltv) && DueByHeight(0, margin, cltv);
      assert GuardWindow(cltv, margin) >= SECS_PER_BLOCK;
    }
  }

  lemma WindowIsReached(now: int, heldAt: int, start: U32, chain: U32, expiry: U32, cltv: U32, margin: U32)
    requires PlausibleChain(now, heldAt, start, chain, expiry, cltv)
    requires DueByHeight(chain, margin, expiry) || DueByClock(now, heldAt, cltv, margin)
    requires margin < cltv || cltv == 0
    ensures heldAt <= Cutoff(now, cltv, margin)
  {
    if cltv > 0 {
      assert GuardWindow(cltv, margin) / 2 == 300 * (cltv - margin);
    }
  }

  // ---- One order ----

  datatype Expiry = LookupFailed | NoHtlc | At(height: U32)

  datatype CancelReply = CancelOk | AlreadyDone | Transient

  datatype Report = Report(chain: Option<U32>, expiry: Expiry, cancel: CancelReply)

  /** Everything a pass learns or fails at while handling one order. */
  datatype Turn = Turn(
    now: int,
    report: Report,
    eventId: EventId,
    published: bool,
    persisted: bool,
    disputeFound: bool,     // the lookup of an existing dispute row succeeded
    disputeWritten: bool,
    setupOk: bool)          // moving the in-memory order to `dispute` succeeded

  /** The chain itself shows that no HTLC backs the trade any more. */
  predicate ChainShowsGone(r: Report) {
    r.chain.Some? && (r.expiry.NoHtlc? || (r.expiry.At? && r.chain.value >= r.expiry.height))
  }

  predicate Due(row: Order, turn: Turn, cltv: U32, margin: U32) {
    var r := turn.report;
    if r.chain.Some? && r.expiry.NoHtlc? then true
    else if r.chain.Some? && r.expiry.At? then DueByHeight(r.chain.value, margin, r.expiry.height)
    else DueByClock(turn.now, row.invoiceHeldAt, cltv, margin)
  }

  predicate MayCancel(r: Report) {
    !r.cancel.Transient? || ChainShowsGone(r)
  }

  predicate Live(d: DisputeRow) {
    d.status == Initiated || d.status == DisputeInProgress
  }

  /** The dispute row after the find-or-reopen-or-create step, and whether the
      pass may go on to the order. */
  function EnsureDispute(row: Order, dispute: Option<DisputeRow>, turn: Turn): (Option<DisputeRow>, bool) {
    if turn.disputeFound && dispute.Some? then
      if Live(dispute.value) then (dispute, true)
      else if turn.disputeWritten
      then (Some(dispute.value.(status := Initiated, solver := None, takenAt := 0, previous := row.status)), true)
      else (dispute, false)
    else if dispute.None? && turn.disputeWritten
    then (Some(DisputeRow(Initiated, None, 0, row.status)), true)
    else (dispute, false)
  }

  datatype Result = Result(row: Order, dispute: Option<DisputeRow>, cancelIssued: bool)

  function GuardActive(row: Order, dispute: Option<DisputeRow>, turn: Turn): Result {
    var closes := MayCancel(turn.report) && turn.published && turn.persisted;
    Result(if closes then row.(status := Canceled, eventId := turn.eventId) else row, dispute, true)
  }

  function GuardFiatSent(row: Order, dispute: Option<DisputeRow>, turn: Turn): Result {
    var (d, proceed) := EnsureDispute(row, dispute, turn);
    var moves := proceed && (row.buyerDispute || turn.setupOk) && turn.persisted;
    Result(if moves then row.(status := Dispute, buyerDispute := true) else row, d, false)
  }

  function GuardOrder(row: Order, dispute: Option<DisputeRow>, turn: Turn, cltv: U32, margin: U32): Result {
    if !DeadlineSelects(row, Cutoff(turn.now, cltv, margin)) || !Due(row, turn, cltv, margin)
    then Result(row, dispute, false)
    else if row.status == Active then GuardActive(row, dispute, turn)
    else GuardFiatSent(row, dispute, turn)
  }

  /** When an order is due, in the report's own terms: the chain within the
      margin of the HTLC's expiry, no HTLC left, or, with the heights unknown,
      the clock past the window of ten-minute blocks. */
  predicate DueNow(heldAt: int, now: int, r: Report, cltv: U32, margin: U32) {
    match (r.chain, r.expiry)
    case (Some(_), NoHtlc) => true
    case (Some(chain), At(height)) => chain + margin >= height
    case (_, _) => now >= heldAt + 600 * GuardBlocks(cltv, margin)
  }

  /** The window in blocks; a margin that swallows it is clamped to half. */
  function GuardBlocks(cltv: U32, margin: U32): int {
    if margin < cltv then cltv - margin else cltv - cltv / 2
  }

  /** The guardian looks at a paid `active` or `fiat-sent` order from half the
      window on, and does nothing, not even ask LND for a cancel, unless it is
      due. */
  lemma ActsOnlyWhenDue(row: Order, dispute: Option<DisputeRow>, turn: Turn, cltv: U32, margin: U32)
    ensures var r := GuardOrder(row, dispute, turn, cltv, margin);
      r.row != row || r.dispute != dispute || r.cancelIssued ==>
        && (if r.cancelIssued then row.status == Active else row.status == FiatSent)
        && row.hash.Some? && row.invoiceHeldAt != 0 && turn.now >= row.invoiceHeldAt + 300 * GuardBlocks(cltv, margin)
        && DueNow(row.invoiceHeldAt, turn.now, turn.report, cltv, margin)
  {
  }

  /** And it does act on one that it looks at and that is due: an `active` one
      it asks LND to cancel, and closes exactly if LND or the chain confirms and
      the writes go through; a `fiat-sent` one it never cancels. */
  lemma ActsWhenDue(row: Order, dispute: Option<DisputeRow>, turn: Turn, cltv: U32, margin: U32)
    requires row.hash.Some? && row.invoiceHeldAt != 0 && turn.now >= row.invoiceHeldAt + 300 * GuardBlocks(cltv, margin)
    requires DueNow(row.invoiceHeldAt, turn.now, turn.report, cltv, margin)
    ensures var r, report := GuardOrder(row, dispute, turn, cltv, margin), turn.report;
      && (row.status == Active ==>
            && r.cancelIssued && r.dispute == dispute
            && r.row == if ConfirmedGone(report) && turn.published && turn.persisted
                        then row.(status := Canceled, eventId := turn.eventId) else row)
      && (row.status == FiatSent ==>
            && !r.cancelIssued
            && (r.row != row ==> turn.persisted && (row.buyerDispute || turn.setupOk))
            && (turn.disputeFound && turn.disputeWritten && turn.setupOk && turn.persisted ==>
                  r.row == row.(status := Dispute, buyerDispute := true)))
  {
  }

  /** LND confirmed the cancel, or the chain shows that no HTLC is left. */
  predicate ConfirmedGone(r: Report) {
    || r.cancel.CancelOk? || r.cancel.AlreadyDone?
    || (r.chain.Some? && r.expiry.NoHtlc?)
    || (r.chain.Some? && r.expiry.At? && r.chain.value >= r.expiry.height)
  }

  // ---- One pass ----

  ghost function Expected(db: Db, turns: map<OrderId, Turn>, cltv: U32, margin: U32): map<OrderId, Result>
    reads db
  {
    map id | id in db.orders && id in turns ::
      GuardOrder(db.orders[id], Lookup(db.disputes, id), turns[id], cltv, margin)
  }

  /** Both tables, and the holds canceled, are what `r` says of the order. */
  predicate Agrees(orders: Rows, disputes: Disputes, canceled: set<OrderId>, id: OrderId, r: Result)
    requires id in orders
  {
    orders[id] == r.row && Lookup(disputes, id) == r.dispute && (id in canceled <==> r.cancelIssued)
  }

  /** The loop body: one selected order. */
  method GuardOne(db: Db, id: OrderId, turn: Turn, cltv: U32, margin: U32) returns (cancelIssued: bool)
    requires id in db.orders && DeadlineSelects(db.orders[id], Cutoff(turn.now, cltv, margin))
    modifies db
    ensures var r := GuardOrder(old(db.orders)[id], Lookup(old(db.disputes), id), turn, cltv, margin);
      db.orders == old(db.orders)[id := r.row] && Lookup(db.disputes, id) == r.dispute && cancelIssued == r.cancelIssued
    ensures forall other :: other != id ==> Lookup(db.disputes, other) == Lookup(old(db.disputes), other)
  {
    var row := db.orders[id];
    if !Due(row, turn, cltv, margin) { return false; }
    cancelIssued := row.status == Active;
    if row.status == Active {
      if MayCancel(turn.report) && turn.published && turn.persisted {
        var _ := db.Update(id, row.(status := Canceled, eventId := turn.eventId));
      }
    } else {
      var (d, proceed) := EnsureDispute(row, Lookup(db.disputes, id), turn);
      if d.Some? {
        db.disputes := db.disputes[id := d.value];
      }
      if proceed && (row.buyerDispute || turn.setupOk) && turn.persisted {
        var _ := db.Update(id, row.(status := Dispute, buyerDispute := true));
      }
    }
  }

  lemma UnselectedKept(db: Db, turns: map<OrderId, Turn>, now: int, cltv: U32, margin: U32)
    requires forall id :: id in turns ==> turns[id].now == now
    ensures var expected := Expected(db, turns, cltv, margin);
      forall id :: id in expected && !DeadlineSelects(db.orders[id], Cutoff(now, cltv, margin)) ==>
        Agrees(db.orders, db.disputes, {}, id, expected[id])
  {
  }

  /** The loop over the selected orders. */
  method GuardSelected(db: Db, turns: map<OrderId, Turn>, now: int, cltv: U32, margin: U32)
      returns (canceled: set<OrderId>)
    requires db.orders.Keys <= turns.Keys
    requires forall id :: id in turns ==> turns[id].now == now
    modifies db
    ensures db.orders.Keys == old(db.orders).Keys && canceled <= db.orders.Keys
    ensures forall id :: id in db.orders ==>
      Agrees(db.orders, db.disputes, canceled, id, old(Expected(db, turns, cltv, margin))[id])
    ensures forall id :: id !in db.orders ==> Lookup(db.disputes, id) == Lookup(old(db.disputes), id)
  {
    ghost var expected, orders, disputes := Expected(db, turns, cltv, margin), db.orders, db.disputes;
    UnselectedKept(db, turns, now, cltv, margin);
    canceled := {};
    var cutoff := Cutoff(now, cltv, margin);
    var todo := set id | id in db.orders && DeadlineSelects(db.orders[id], cutoff);
    while todo != {}
      invariant todo <= db.orders.Keys == orders.Keys && canceled <= db.orders.Keys - todo
      invariant forall id :: id in todo ==> DeadlineSelects(orders[id], cutoff)
      invariant forall id :: id in todo ==>
        db.orders[id] == orders[id] && Lookup(db.disputes, id) == Lookup(disputes, id)
      invariant forall id :: id in db.orders && id !in todo ==>
        Agrees(db.orders, db.disputes, canceled, id, expected[id])
      invariant forall id :: id !in db.orders ==> Lookup(db.disputes, id) == Lookup(disputes, id)
    {
      var id :| id in todo;
      todo := todo - {id};
      var issued := GuardOne(db, id, turns[id], cltv, margin);
      if issued {
        canceled := canceled + {id};
      }
      assert Agrees(db.orders, db.disputes, canceled, id, expected[id]);
    }
  }

  /** One pass; `turns` holds what it meets at each order, and `canceled` the
      orders whose hold it asked LND to cancel. No order is touched, and no hold
      canceled, that is not due. */
  method EnforceEscrowDeadlinePass(db: Db, turns: map<OrderId, Turn>, now: int, cltv: U32, margin: U32)
      returns (canceled: set<OrderId>)
    requires db.orders.Keys <= turns.Keys
    requires forall id :: id in turns ==> turns[id].now == now
    modifies db
    ensures db.orders.Keys == old(db.orders).Keys && canceled <= db.orders.Keys
    ensures forall id :: id in db.orders ==>
      Agrees(db.orders, db.disputes, canceled, id, old(Expected(db, turns, cltv, margin))[id])
    ensures forall id :: id in db.orders && !(id in canceled) ==>
      || (db.orders[id] == old(db.orders)[id] && Lookup(db.disputes, id) == Lookup(old(db.disputes), id))
      || (old(db.orders)[id].status == FiatSent
          && DueNow(old(db.orders)[id].invoiceHeldAt, now, turns[id].report, cltv, margin))
    ensures forall id :: id in canceled ==>
      && old(db.orders)[id].status == Active
      && DueNow(old(db.orders)[id].invoiceHeldAt, now, turns[id].report, cltv, margin)
    ensures forall id :: id !in db.orders ==> Lookup(db.disputes, id) == Lookup(old(db.disputes), id)
  {
    ghost var orders, disputes := db.orders, db.disputes;
    canceled := GuardSelected(db, turns, now, cltv, margin);
    forall id | id in orders {
      ActsOnlyWhenDue(orders[id], Lookup(disputes, id), turns[id], cltv, margin);
    }
  }

  // ---- Crash recovery of the dispute ----

  /** Repeated passes over one order, each failing wherever it fails. */
  function Passes(row: Order, dispute: Option<DisputeRow>, turns: seq<Turn>, cltv: U32, margin: U32): Result {
    if turns == [] then Result(row, dispute, false) else
    var n := |turns| - 1;
    var before := Passes(row, dispute, turns[..n], cltv, margin);
    var r := GuardOrder(before.row, before.dispute, turns[n], cltv, margin);
    r.(cancelIssued := before.cancelIssued || r.cancelIssued)
  }

  /** A pass that reaches the order in time and meets no failure. */
  predicate Clean(row: Order, turn: Turn, cltv: U32, margin: U32) {
    && DeadlineSelects(row, Cutoff(turn.now, cltv, margin))
    && DueNow(row.invoiceHeldAt, turn.now, turn.report, cltv, margin)
    && turn.disputeFound && turn.disputeWritten && turn.setupOk && turn.persisted
  }

  /** From any failure point, with any leftover dispute row: the order is
      either still `fiat-sent` or in `dispute` with a live row; one clean pass
      gets it there for good; the hold invoice is never touched. */
  lemma {:induction false} DisputeRecovers(row: Order, dispute: Option<DisputeRow>, turns: seq<Turn>,
                                           cltv: U32, margin: U32)
    requires row.status == FiatSent
    ensures var r := Passes(row, dispute, turns, cltv, margin);
      && !r.cancelIssued
      && r.row.(status := FiatSent, buyerDispute := row.buyerDispute) == row
      && (r.row.status == Dispute ==> r.row.buyerDispute && r.dispute.Some? && r.dispute.value.status != Resolved)
      && (r.row.status == FiatSent ==>
            r.row == row && forall i :: 0 <= i < |turns| ==> !Clean(row, turns[i], cltv, margin))
      && (r.row.status == FiatSent || r.row.status == Dispute)
      && (dispute.Some? && dispute.value.status != Resolved ==> r.dispute == dispute)
      && (r.row.status == Dispute && (dispute.None? || dispute.value.status == Resolved) ==>
            r.dispute == Some(DisputeRow(Initiated, None, 0, FiatSent)))
      && (r.dispute == dispute || r.dispute == Some(DisputeRow(Initiated, None, 0, FiatSent)))
  {
    if turns != [] {
      DisputeRecovers(row, dispute, turns[..|turns| - 1], cltv, margin);
    }
  }
}
