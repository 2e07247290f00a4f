/** The tasks that drive the payout claim, written from its statements: the
    dispatcher with its queue and watcher, and the reconciler's pass. */
module PayoutJobs {
  import opened Orders
  import opened Database
  import opened PayoutSafety

  // ---- Reconciling one claim ----

  /** `wellFormed`: the stored hash is 32 bytes; `event`: the id of the success
      event, if it could be built. */
  datatype Turn = Turn(wellFormed: bool, lookup: Answer, event: Option<EventId>)

  predicate Finalizes(row: Order, turn: Turn) {
    turn.wellFormed && turn.lookup == Answer.Succeeded && row.buyerKey.Some? && turn.event.Some?
  }

  /** What becomes of a row whose claim is reconciled, answer by answer. */
  ghost predicate Reconciled(before: Order, after: Order, turn: Turn) {
    var rearmed := before.(payoutHash := None, payoutClaimedAt := None, failedPayment := true);
    if !turn.wellFormed then after == rearmed else
    match turn.lookup
    case PaymentFailed => after == rearmed
    case UnknownPayment => after == rearmed
    case NoRecord => after == rearmed
    case InFlight => after == before
    case LookupFailed => after == before
    case Succeeded =>
      if before.buyerKey.None? || turn.event.None? then after == before
      else if before.status != SettledHoldInvoice then after == before.(payoutHash := None, payoutClaimedAt := None)
      else after == before.(status := Success, eventId := turn.event.value, payoutHash := None, payoutClaimedAt := None)
  }

  method ReconcileInflightPayout(db: Db, id: OrderId, hash: PaymentHash, token: Option<int>, turn: Turn)
    modifies db`orders
    ensures db.orders.Keys == old(db.orders).Keys
    ensures forall x :: x in db.orders && x != id ==> db.orders[x] == old(db.orders)[x]
    ensures id in db.orders && OwnsPayout(old(db.orders)[id], hash, token) ==>
      Reconciled(old(db.orders)[id], db.orders[id], turn)
    ensures id in db.orders && !OwnsPayout(old(db.orders)[id], hash, token) ==>
      var before, after := old(db.orders)[id], db.orders[id];
      || after == before
      || (Finalizes(before, turn) && after == before.(status := Success, eventId := turn.event.value))
  {
    if !turn.wellFormed {
      var _ := db.FailOrderPayout(id, hash, token);
    } else if turn.lookup == Answer.Succeeded {
      if id in db.orders && db.orders[id].buyerKey.Some? && turn.event.Some? {
        db.FinalizeSuccess(id, turn.event.value);
        var _ := db.ClearOrderPayout(id, hash, token);
      }
    } else if NothingInFlight(turn.lookup) {
      var owned := db.FailOrderPayout(id, hash, token);
      if owned {
        db.RecordPaymentFailure(id);
      }
    }
  }

  /** One pass over every claim older than the grace window. Younger claims and
      unclaimed orders are left alone. */
  method ReconcilePass(db: Db, now: int, grace: int, turns: map<OrderId, Turn>)
    requires db.orders.Keys <= turns.Keys
    modifies db`orders
    ensures db.orders.Keys == old(db.orders).Keys
    ensures forall id :: id in db.orders ==>
      if ReconcileSelects(old(db.orders)[id], now - grace)
      then Reconciled(old(db.orders)[id], db.orders[id], turns[id])
      else db.orders[id] == old(db.orders)[id]
  {
    ghost var orders := db.orders;
    var inflight := set id | id in db.orders && ReconcileSelects(db.orders[id], now - grace);
    var todo := inflight;
    while todo != {}
      invariant todo <= inflight && db.orders.Keys == orders.Keys
      invariant forall id :: id in db.orders && (id in todo || id !in inflight) ==> db.orders[id] == orders[id]
      invariant forall id :: id in inflight && id !in todo ==> Reconciled(orders[id], db.orders[id], turns[id])
    {
      var id :| id in todo;
      todo := todo - {id};
      ReconcileInflightPayout(db, id, db.orders[id].payoutHash.value, db.orders[id].payoutClaimedAt, turns[id]);
    }
  }

  // ---- Dispatching one payout ----

  /** A wait ends: the table as the other tasks left it, and the clock. */
  datatype Moment = Moment(rows: Rows, now: int)

  /** Where the payout goes: an invoice, text that is none, or an address that
      gave no invoice that can be paid. */
  datatype Destination = Invoice(hash: PaymentHash) | Undecodable | Unpayable

  datatype SendOutcome = StreamEnded | TimedOut | SendError(lookup: Answer)

  /** A payment update as the watcher meets it. */
  datatype Update = Paid(event: Option<EventId>) | Failed | Progress

  datatype Dispatch = NotReady | Recorded | Duplicate | Dropped | Sent

  const TWO_64 := 0x1_0000_0000_0000_0000

  /** The cast of a signed 64-bit amount: what is negative wraps around. */
  function AsU64(n: int): (u: int)
    ensures 0 <= n < 0x8000_0000_0000_0000 ==> u == n
    ensures -0x8000_0000_0000_0000 <= n < 0 ==> u == n + 0x1_0000_0000_0000_0000
  {
    n % TWO_64
  }

  /** The order can be paid out: an invoice, an amount left after the fee, a
      buyer, a connection. */
  predicate Payable(snapshot: Order, connected: bool) {
    && snapshot.buyerInvoice.Some? && AsU64(snapshot.amount) > AsU64(snapshot.fee)
    && snapshot.buyerKey.Some? && connected
  }

  predicate StillOurs(m: Moment, id: OrderId, hash: PaymentHash, token: int) {
    && id in m.rows && m.rows[id].status == SettledHoldInvoice
    && m.rows[id].payoutHash == Some(hash) && m.rows[id].payoutClaimedAt == Some(token)
  }

  /** The claim outlasts the queue: every heartbeat and the last check find it
      with the token the one before left. */
  predicate Outlasts(id: OrderId, hash: PaymentHash, token: int, beats: seq<Moment>, last: Moment)
    decreases |beats|
  {
    if beats == [] then StillOurs(last, id, hash, token)
    else StillOurs(beats[0], id, hash, token) && Outlasts(id, hash, beats[0].now, beats[1..], last)
  }

  predicate RearmsAfterSend(send: SendOutcome) {
    send.SendError? && NothingInFlight(send.lookup)
  }

  /** An update the watcher acts on: a failure, or a success it can record. */
  predicate Decisive(u: Update) {
    u.Failed? || (u.Paid? && u.event.Some?)
  }

  function FirstDecisive(updates: seq<Update>): Option<Update> {
    if updates == [] then None else
    var n := |updates| - 1;
    var before := FirstDecisive(updates[..n]);
    if before.Some? then before else if Decisive(updates[n]) then Some(updates[n]) else None
  }

  /** The row once the payment is known to have arrived. */
  function Finished(row: Order, eventId: EventId): Order {
    row.(status := Success, eventId := eventId, payoutHash := None, payoutClaimedAt := None)
  }

  /** The row once the payment is known to have failed. */
  function Rearmed(row: Order): Order {
    row.(payoutHash := None, payoutClaimedAt := None, failedPayment := true)
  }

  /** What the stream leaves of a claimed row: nothing changes before the first
      update that decides; a success finishes the order, whatever follows; a
      failure re-arms it, and only a later success can still finish it. */
  ghost predicate Watched(before: Order, after: Order, updates: seq<Update>) {
    match FirstDecisive(updates)
    case None => after == before
    case Some(Paid(event)) => event.Some? && after == Finished(before, event.value)
    case Some(Failed) =>
      || (after == Rearmed(before) && forall u :: u in updates ==> !(u.Paid? && u.event.Some?))
      || (exists u :: u in updates && u.Paid? && u.event.Some? && after == Finished(Rearmed(before), u.event.value))
    case Some(Progress) => false
  }

  /** One update, for a row that is still claimed, and for one that is not. */
  method WatchOne(db: Db, id: OrderId, hash: PaymentHash, token: int, update: Update)
    requires id in db.orders
    modifies db`orders
    ensures db.orders.Keys == old(db.orders).Keys
    ensures forall x :: x in db.orders && x != id ==> db.orders[x] == old(db.orders)[x]
    ensures var before, after := old(db.orders)[id], db.orders[id];
      && (!Decisive(update) ==> after == before)
      && (PayoutTouchable(before, hash, Some(token)) ==>
            && (update.Failed? ==> after == Rearmed(before))
            && (update.Paid? && update.event.Some? ==> after == Finished(before, update.event.value)))
      && (before.payoutHash == None && before.payoutClaimedAt == None ==>
            && (update.Failed? ==> after == before)
            && (update.Paid? && update.event.Some? && before.status == SettledHoldInvoice ==>
                  after == Finished(before, update.event.value))
            && (before.status != SettledHoldInvoice ==> after == before))
  {
    match update {
      case Paid(event) =>
        if event.Some? {
          db.FinalizeSuccess(id, event.value);
          var _ := db.ClearOrderPayout(id, hash, Some(token));
        }
      case Failed =>
        var owned := db.FailOrderPayout(id, hash, Some(token));
        if owned {
          db.RecordPaymentFailure(id);
        }
      case Progress =>
    }
  }

  lemma {:induction false} NoneDecisive(updates: seq<Update>)
    requires FirstDecisive(updates).None?
    ensures forall u :: u in updates ==> !Decisive(u)
  {
    if updates != [] {
      NoneDecisive(updates[..|updates| - 1]);
      assert updates == updates[..|updates| - 1] + [updates[|updates| - 1]];
    }
  }

  lemma WatchedStep(before: Order, now: Order, after: Order, updates: seq<Update>, update: Update,
                    hash: PaymentHash, token: int)
    requires PayoutTouchable(before, hash, Some(token)) && Watched(before, now, updates)
    requires !Decisive(update) ==> after == now
    requires PayoutTouchable(now, hash, Some(token)) ==>
      && (update.Failed? ==> after == Rearmed(now))
      && (update.Paid? && update.event.Some? ==> after == Finished(now, update.event.value))
    requires now.payoutHash == None && now.payoutClaimedAt == None ==>
      && (update.Failed? ==> after == now)
      && (update.Paid? && update.event.Some? && now.status == SettledHoldInvoice ==>
            after == Finished(now, update.event.value))
      && (now.status != SettledHoldInvoice ==> after == now)
    ensures Watched(before, after, updates + [update])
  {
    var more := updates + [update];
    assert more[..|more| - 1] == updates;
    assert update in more && forall u :: u in updates ==> u in more;
    if FirstDecisive(updates) == Some(Failed) && now == Rearmed(before) {
      if update.Paid? && update.event.Some? {
        assert update in more && after == Finished(Rearmed(before), update.event.value);
      } else {
        assert after == Rearmed(before);
        assert forall u :: u in more ==> u in updates || u == update;
      }
    } else if FirstDecisive(updates) == None {
      NoneDecisive(updates);
      assert forall u :: u in more ==> u in updates || u == update;
    } else if FirstDecisive(updates) == Some(Failed) {
      var u :| u in updates && u.Paid? && u.event.Some? && now == Finished(Rearmed(before), u.event.value);
      assert u in more && after == now;
    }
  }

  /** The watcher follows the payment stream. */
  method Watch(db: Db, id: OrderId, hash: PaymentHash, token: int, updates: seq<Update>)
    requires id in db.orders && PayoutTouchable(db.orders[id], hash, Some(token))
    modifies db`orders
    ensures db.orders.Keys == old(db.orders).Keys
    ensures forall x :: x in db.orders && x != id ==> db.orders[x] == old(db.orders)[x]
    ensures Watched(old(db.orders)[id], db.orders[id], updates)
  {
    ghost var orders := db.orders;
    for i := 0 to |updates|
      invariant db.orders.Keys == orders.Keys
      invariant forall x :: x in db.orders && x != id ==> db.orders[x] == orders[x]
      invariant Watched(orders[id], db.orders[id], updates[..i])
    {
      ghost var now := db.orders[id];
      WatchOne(db, id, hash, token, updates[i]);
      WatchedStep(orders[id], now, db.orders[id], updates[..i], updates[i], hash, token);
      assert updates[..i + 1] == updates[..i] + [updates[i]];
    }
    assert updates[..|updates|] == updates;
  }

  /** From the send to its outcome: what the stream leaves, and the dispatcher's
      verdict on a row that is still claimed. */
  method SendAndWatch(db: Db, id: OrderId, hash: PaymentHash, token: int, updates: seq<Update>, send: SendOutcome)
    requires id in db.orders && PayoutTouchable(db.orders[id], hash, Some(token))
    modifies db`orders
    ensures db.orders.Keys == old(db.orders).Keys
    ensures forall x :: x in db.orders && x != id ==> db.orders[x] == old(db.orders)[x]
    ensures Concluded(old(db.orders)[id], db.orders[id], updates, send)
  {
    Watch(db, id, hash, token, updates);
    if RearmsAfterSend(send) {
      var owned := db.FailOrderPayout(id, hash, Some(token));
      if owned {
        db.RecordPaymentFailure(id);
      }
    }
  }

  /** LND answered the failed send with nothing that may still settle. */
  predicate RuledOut(send: SendOutcome) {
    send.SendError? && send.lookup in {PaymentFailed, UnknownPayment, NoRecord}
  }

  /** The stream decides; if it does not, a send that LND rules out re-arms the
      order, and anything else, a timed-out send included, keeps the claim. */
  ghost predicate Concluded(before: Order, after: Order, updates: seq<Update>, send: SendOutcome) {
    if FirstDecisive(updates).None? then after == (if RuledOut(send) then Rearmed(before) else before)
    else Watched(before, after, updates)
  }

  /** While the payout waits for its turn other tasks write the table as they
      please: `beats` and `last` are what each check finds. The payment is sent
      exactly if the claim was won and is still this one's at every check; and
      once sent the order ends as the stream and LND decide. */
  method DoPayment(db: Db, id: OrderId, snapshot: Order, destination: Destination, connected: bool, now: int,
                   beats: seq<Moment>, last: Moment, updates: seq<Update>, send: SendOutcome)
      returns (d: Dispatch)
    modifies db`orders
    ensures d == Sent <==>
      && Payable(snapshot, connected) && destination.Invoice?
      && id in old(db.orders)
      && old(db.orders)[id].payoutHash == None && old(db.orders)[id].status == SettledHoldInvoice
      && Outlasts(id, destination.hash, now, beats, last)
    ensures d == NotReady || d == Duplicate ==> db.orders == old(db.orders)
    ensures d == Recorded ==> forall x :: x in db.orders ==>
      x in old(db.orders) && db.orders[x] == if x == id then old(db.orders)[x].(failedPayment := true)
        else old(db.orders)[x]
    ensures d == Dropped ==> db.orders == last.rows || exists m :: m in beats && db.orders == m.rows
    ensures d == Sent ==>
      && id in db.orders && id in last.rows
      && (forall x :: x in db.orders && x != id ==> x in last.rows && db.orders[x] == last.rows[x])
      && Concluded(last.rows[id].(payoutClaimedAt := Some(last.now)), db.orders[id], updates, send)
  {
    if snapshot.buyerInvoice.None? || AsU64(snapshot.amount) <= AsU64(snapshot.fee) { return NotReady; }
    if destination.Unpayable? {
      if snapshot.buyerKey.None? { return NotReady; }
      db.RecordPaymentFailure(id);
      return Recorded;
    }
    if snapshot.buyerKey.None? || !connected || destination.Undecodable? { return NotReady; }
    var hash := destination.hash;
    var claimed := db.ClaimOrderPayout(id, hash, now);
    if claimed.None? { return Duplicate; }
    var token := now;
    for i := 0 to |beats|
      invariant Outlasts(id, hash, now, beats, last) <==> Outlasts(id, hash, token, beats[i..], last)
    {
      db.orders := beats[i].rows;
      var refreshed := db.TouchOrderPayoutClaim(id, hash, Some(token), beats[i].now);
      assert beats[i..][0] == beats[i] && beats[i..][1..] == beats[i + 1..];
      if refreshed.None? { return Dropped; }
      token := refreshed.value;
    }
    db.orders := last.rows;
    var refreshed := db.TouchOrderPayoutClaim(id, hash, Some(token), last.now);
    if refreshed.None? { return Dropped; }
    SendAndWatch(db, id, hash, last.now, updates, send);
    return Sent;
  }
}
