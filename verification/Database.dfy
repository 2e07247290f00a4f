/** The `orders` and `disputes` tables, with one method per guarded statement.
    Every method names its whole effect: which row changed, to what, and that
    a statement whose `WHERE` matched nothing changed nothing. */
module Database {
  import opened Orders

  datatype DisputeStatus = Initiated | DisputeInProgress | Resolved

  datatype DisputeRow = DisputeRow(status: DisputeStatus, solver: Option<PubKey>, takenAt: int, previous: Status)

  type Rows = map<OrderId, Order>

  /** `disputes.order_id` is unique, so there is at most one row per order. */
  type Disputes = map<OrderId, DisputeRow>

  class Db {
    var orders: Rows
    var disputes: Disputes

    constructor (orders: Rows, disputes: Disputes)
      ensures this.orders == orders && this.disputes == disputes
    {
      this.orders, this.disputes := orders, disputes;
    }

    method FindOrderByHash(hash: PaymentHash) returns (found: Option<OrderId>)
      ensures found.Some? ==> found.value in orders && orders[found.value].hash == Some(hash)
      ensures found.None? ==> forall id :: id in orders ==> orders[id].hash != Some(hash)
    {
      var matches := set id | id in orders && orders[id].hash == Some(hash);
      if matches == {} {
        assert forall id :: id in orders && orders[id].hash == Some(hash) ==> id in matches;
        return None;
      }
      var id :| id in matches;
      found := Some(id);
    }

    method CasPretradeOrderStatus(id: OrderId, newStatus: Status, eventId: EventId) returns (won: bool)
      modifies this`orders
      ensures won <==> id in old(orders) && PreTrade(old(orders)[id].status)
      ensures orders == if won then old(orders)[id := CasPretradeStatus(old(orders)[id], newStatus, eventId)]
        else old(orders)
    {
      won := id in orders && PreTrade(orders[id].status);
      if won {
        orders := orders[id := orders[id].(status := newStatus, eventId := eventId)];
      }
    }

    method CasPromoteTakerContext(id: OrderId, merged: Order) returns (won: bool)
      modifies this`orders
      ensures won <==> id in old(orders) && PreTrade(old(orders)[id].status)
      ensures orders == if won then old(orders)[id := CasPromote(old(orders)[id], merged)] else old(orders)
    {
      won := id in orders && PreTrade(orders[id].status);
      if won {
        orders := orders[id := CasPromote(orders[id], merged)];
      }
    }

    method CasCompletePretradeTake(id: OrderId, take: Order, allowWaitingBuyerInvoice: bool) returns (won: bool)
      modifies this`orders
      ensures won <==> id in old(orders) && TakeAdmits(old(orders)[id].status, allowWaitingBuyerInvoice)
      ensures orders == if won then old(orders)[id := CasCompleteTake(old(orders)[id], take, allowWaitingBuyerInvoice)]
                        else old(orders)
    {
      won := id in orders && TakeAdmits(orders[id].status, allowWaitingBuyerInvoice);
      if won {
        orders := orders[id := CasCompleteTake(orders[id], take, allowWaitingBuyerInvoice)];
      }
    }

    method UpdateOrderToInitialState(id: OrderId, amount: int, fee: int, devFee: int) returns (matched: bool)
      modifies this`orders
      ensures matched <==> id in old(orders)
      ensures orders == if matched then old(orders)[id := ResetToInitial(old(orders)[id], amount, fee, devFee)]
        else old(orders)
    {
      matched := id in orders;
      if matched {
        orders := orders[id := ResetToInitial(orders[id], amount, fee, devFee)];
      }
    }

    /** Forget the taker's keys and read the row back. */
    method EditPubkeysOrder(id: OrderId) returns (edited: Option<Order>)
      modifies this`orders
      ensures edited.Some? <==> id in old(orders)
      ensures orders == if id in old(orders) then old(orders)[id := ClearTakerKeys(old(orders)[id])] else old(orders)
      ensures edited.Some? ==> edited.value == orders[id]
    {
      if id !in orders { return None; }
      orders := orders[id := ClearTakerKeys(orders[id])];
      edited := Some(orders[id]);
    }

    method UpdateOrderInvoiceHeldAt(id: OrderId, heldAt: int) returns (matched: bool)
      modifies this`orders
      ensures matched <==> id in old(orders)
      ensures orders == if matched then old(orders)[id := old(orders)[id].(invoiceHeldAt := heldAt)] else old(orders)
    {
      matched := id in orders;
      if matched {
        orders := orders[id := orders[id].(invoiceHeldAt := heldAt)];
      }
    }

    /** The full-row update of the in-memory struct. */
    method Update(id: OrderId, snapshot: Order) returns (matched: bool)
      modifies this`orders
      ensures matched <==> id in old(orders)
      ensures orders == if matched then old(orders)[id := FullRow(old(orders)[id], snapshot)] else old(orders)
    {
      matched := id in orders;
      if matched {
        orders := orders[id := FullRow(orders[id], snapshot)];
      }
    }

    method ClaimOrderStatus(id: OrderId, expected: Status, newStatus: Status) returns (won: bool)
      modifies this`orders
      ensures won <==> id in old(orders) && StatusClaimable(old(orders)[id], expected)
      ensures orders == if won then old(orders)[id := old(orders)[id].(status := newStatus)] else old(orders)
    {
      won := id in orders && StatusClaimable(orders[id], expected);
      if won {
        orders := orders[id := orders[id].(status := newStatus)];
      }
    }

    method UpdateOrderCashuEscrow(id: OrderId, mint: string, token: Token, lockedAt: int, expected: Status,
                                  newStatus: Status)
        returns (locked: bool)
      modifies this`orders
      ensures locked <==> CashuLockable(old(orders), id, token, expected)
      ensures orders == if locked then old(orders)[id := CashuLocked(old(orders)[id], mint, token, lockedAt, newStatus)]
                        else old(orders)
    {
      locked := CashuLockable(orders, id, token, expected);
      if locked {
        orders := orders[id := CashuLocked(orders[id], mint, token, lockedAt, newStatus)];
      }
    }

    /** The retry bookkeeping writes the flag whoever holds the claim. */
    method RecordPaymentFailure(id: OrderId)
      modifies this`orders
      ensures orders == if id in old(orders) then old(orders)[id := old(orders)[id].(failedPayment := true)]
        else old(orders)
    {
      if id in orders {
        orders := orders[id := orders[id].(failedPayment := true)];
      }
    }

    /** `settled-hold-invoice` becomes `success`, once. */
    method FinalizeSuccess(id: OrderId, eventId: EventId)
      modifies this`orders
      ensures orders == if id in old(orders) && old(orders)[id].status == SettledHoldInvoice
                        then old(orders)[id := old(orders)[id].(status := Success, eventId := eventId)] else old(orders)
    {
      if id in orders && orders[id].status == SettledHoldInvoice {
        orders := orders[id := orders[id].(status := Success, eventId := eventId)];
      }
    }

    method ClaimOrderPayout(id: OrderId, hash: PaymentHash, now: int) returns (claimedAt: Option<int>)
      modifies this`orders
      ensures claimedAt == if id in old(orders) && PayoutClaimable(old(orders)[id]) then Some(now) else None
      ensures orders == if claimedAt.Some? then old(orders)[id := ClaimPayout(old(orders)[id], hash, now)]
        else old(orders)
    {
      if id in orders && PayoutClaimable(orders[id]) {
        orders := orders[id := orders[id].(payoutHash := Some(hash), payoutClaimedAt := Some(now))];
        return Some(now);
      }
      return None;
    }

    method TouchOrderPayoutClaim(id: OrderId, hash: PaymentHash, claimedAt: Option<int>, now: int)
        returns (refreshedAt: Option<int>)
      modifies this`orders
      ensures refreshedAt == if id in old(orders) && PayoutTouchable(old(orders)[id], hash, claimedAt)
        then Some(now) else None
      ensures orders == if refreshedAt.Some?
        then old(orders)[id := TouchPayout(old(orders)[id], hash, claimedAt, now)] else old(orders)
    {
      if id in orders && PayoutTouchable(orders[id], hash, claimedAt) {
        orders := orders[id := orders[id].(payoutClaimedAt := Some(now))];
        return Some(now);
      }
      return None;
    }

    method ClearOrderPayout(id: OrderId, hash: PaymentHash, claimedAt: Option<int>) returns (owned: bool)
      modifies this`orders
      ensures owned <==> id in old(orders) && OwnsPayout(old(orders)[id], hash, claimedAt)
      ensures orders == if owned then old(orders)[id := ClearPayout(old(orders)[id], hash, claimedAt)] else old(orders)
    {
      owned := id in orders && OwnsPayout(orders[id], hash, claimedAt);
      if owned {
        orders := orders[id := orders[id].(payoutHash := None, payoutClaimedAt := None)];
      }
    }

    method FailOrderPayout(id: OrderId, hash: PaymentHash, claimedAt: Option<int>) returns (owned: bool)
      modifies this`orders
      ensures owned <==> id in old(orders) && OwnsPayout(old(orders)[id], hash, claimedAt)
      ensures orders == if owned then old(orders)[id := FailPayout(old(orders)[id], hash, claimedAt)] else old(orders)
    {
      owned := id in orders && OwnsPayout(orders[id], hash, claimedAt);
      if owned {
        orders := orders[id := orders[id].(payoutHash := None, payoutClaimedAt := None, failedPayment := true)];
      }
    }
  }
}
