/** The order row shared by every handler, job and subscriber, and the effect
    of each guarded SQL statement of `src/db.rs` on that row.

    Identifiers (order ids, trade keys, payment hashes, tokens, event ids) are
    only ever compared for equality, so they are modelled as naturals.
    Timestamps are Unix seconds. */
module Orders {

  datatype Option<+T> = None | Some(value: T)

  function Lookup<K, V>(m: map<K, V>, key: K): Option<V> {
    if key in m then Some(m[key]) else None
  }

  type OrderId = nat
  type PubKey = nat
  type PaymentHash = nat
  type EventId = nat
  type Token = nat

  datatype Kind = Buy | Sell

  datatype Status =
    | Pending | WaitingTakerBond | WaitingMakerBond
    | WaitingPayment | WaitingBuyerInvoice
    | Active | FiatSent | Dispute
    | SettledHoldInvoice | Success
    | Canceled | CanceledByAdmin | CooperativelyCanceled | Expired
    | CompletedByAdmin | SettledByAdmin | InProgress

  datatype Order = Order(
    kind: Kind,
    status: Status,
    eventId: EventId,
    buyerKey: Option<PubKey>,
    sellerKey: Option<PubKey>,
    masterBuyerKey: Option<PubKey>,
    masterSellerKey: Option<PubKey>,
    tradeIndexBuyer: Option<int>,
    tradeIndexSeller: Option<int>,
    fiatAmount: int,
    amount: int,
    fee: int,
    devFee: int,
    priceFromApi: bool,
    createdAt: int,
    takenAt: int,
    buyerInvoice: Option<nat>,
    preimage: Option<nat>,
    hash: Option<PaymentHash>,
    invoiceHeldAt: int,
    buyerDispute: bool,
    failedPayment: bool,
    payoutHash: Option<PaymentHash>,
    payoutClaimedAt: Option<int>,
    cashuMint: Option<string>,
    cashuToken: Option<Token>,
    cashuLockedAt: Option<int>)

  /** Statuses from which a take or a maker cancel may still start. */
  predicate PreTrade(s: Status) {
    s == Pending || s == WaitingTakerBond
  }

  /** Statuses in which exactly one party owes the next move. */
  predicate Waiting(s: Status) {
    s == WaitingPayment || s == WaitingBuyerInvoice
  }

  /** Statuses in which the trade relies on a paid hold invoice. */
  predicate EscrowBacked(s: Status) {
    s == Active || s == FiatSent || s == Dispute
  }

  /** One side of the trade: trade key, identity key, trade index. */
  datatype Side = Side(key: Option<PubKey>, master: Option<PubKey>, index: Option<int>)

  function BuyerSide(row: Order): Side { Side(row.buyerKey, row.masterBuyerKey, row.tradeIndexBuyer) }

  function SellerSide(row: Order): Side { Side(row.sellerKey, row.masterSellerKey, row.tradeIndexSeller) }

  function MakerSide(kind: Kind, row: Order): Side { if kind == Buy then BuyerSide(row) else SellerSide(row) }

  function TakerSide(kind: Kind, row: Order): Side { if kind == Buy then SellerSide(row) else BuyerSide(row) }

  datatype Party = Buyer | Seller

  /** In a waiting status: the seller owes the payment, the buyer an invoice. */
  function DutyHolder(s: Status): Party {
    if s == WaitingPayment then Seller else Buyer
  }

  function Maker(k: Kind): Party {
    if k == Buy then Buyer else Seller
  }

  // ---- Writes: each function is the row after the statement ran. ----

  function CasPretradeStatus(row: Order, newStatus: Status, eventId: EventId): Order {
    if PreTrade(row.status) then row.(status := newStatus, eventId := eventId) else row
  }

  /** Only the taker's side, the per-take terms and the clock are copied. */
  function CasPromote(row: Order, merged: Order): Order {
    if !PreTrade(row.status) then row else
    var terms := row.(fiatAmount := merged.fiatAmount, amount := merged.amount, fee := merged.fee,
                      devFee := merged.devFee, createdAt := merged.createdAt, takenAt := merged.takenAt);
    match merged.kind
    case Buy =>
      terms.(sellerKey := merged.sellerKey, masterSellerKey := merged.masterSellerKey,
             tradeIndexSeller := merged.tradeIndexSeller)
    case Sell =>
      terms.(buyerKey := merged.buyerKey, masterBuyerKey := merged.masterBuyerKey,
             tradeIndexBuyer := merged.tradeIndexBuyer, buyerInvoice := merged.buyerInvoice)
  }

  predicate TakeAdmits(s: Status, allowWaitingBuyerInvoice: bool) {
    PreTrade(s) || (allowWaitingBuyerInvoice && s == WaitingBuyerInvoice)
  }

  function CasCompleteTake(row: Order, take: Order, allowWaitingBuyerInvoice: bool): Order {
    if !TakeAdmits(row.status, allowWaitingBuyerInvoice) then row else
    row.(status := take.status, eventId := take.eventId,
         buyerKey := take.buyerKey, sellerKey := take.sellerKey,
         masterBuyerKey := take.masterBuyerKey, masterSellerKey := take.masterSellerKey,
         tradeIndexBuyer := take.tradeIndexBuyer, tradeIndexSeller := take.tradeIndexSeller,
         fiatAmount := take.fiatAmount, amount := take.amount, fee := take.fee, devFee := take.devFee,
         createdAt := take.createdAt, buyerInvoice := take.buyerInvoice,
         preimage := take.preimage, hash := take.hash, takenAt := take.takenAt)
  }

  function ResetToInitial(row: Order, amount: int, fee: int, devFee: int): Order {
    row.(status := Pending, amount := amount, fee := fee, devFee := devFee, hash := None,
         preimage := None, buyerInvoice := None, takenAt := 0, invoiceHeldAt := 0)
  }

  /** The taker's keys are forgotten, the maker's are kept. */
  function ClearTakerKeys(row: Order): Order {
    match row.kind
    case Buy => row.(sellerKey := None, masterSellerKey := None)
    case Sell => row.(buyerKey := None, masterBuyerKey := None)
  }

  /** A full-row update: every column of the in-memory struct. The payout
      columns are not part of that struct and keep their stored values. */
  function FullRow(row: Order, snapshot: Order): Order {
    snapshot.(payoutHash := row.payoutHash, payoutClaimedAt := row.payoutClaimedAt)
  }

  /** The claim is still the one a caller holds: same payment, same token. */
  predicate OwnsPayout(row: Order, hash: PaymentHash, claimedAt: Option<int>) {
    row.payoutHash == Some(hash) && row.payoutClaimedAt == claimedAt
  }

  predicate PayoutClaimable(row: Order) {
    row.payoutHash.None? && row.status == SettledHoldInvoice
  }

  predicate PayoutTouchable(row: Order, hash: PaymentHash, claimedAt: Option<int>) {
    OwnsPayout(row, hash, claimedAt) && row.status == SettledHoldInvoice
  }

  function ClaimPayout(row: Order, hash: PaymentHash, now: int): Order {
    if PayoutClaimable(row) then row.(payoutHash := Some(hash), payoutClaimedAt := Some(now)) else row
  }

  function TouchPayout(row: Order, hash: PaymentHash, claimedAt: Option<int>, now: int): Order {
    if PayoutTouchable(row, hash, claimedAt) then row.(payoutClaimedAt := Some(now)) else row
  }

  function ClearPayout(row: Order, hash: PaymentHash, claimedAt: Option<int>): Order {
    if OwnsPayout(row, hash, claimedAt) then row.(payoutHash := None, payoutClaimedAt := None) else row
  }

  function FailPayout(row: Order, hash: PaymentHash, claimedAt: Option<int>): Order {
    if OwnsPayout(row, hash, claimedAt)
    then row.(payoutHash := None, payoutClaimedAt := None, failedPayment := true)
    else row
  }

  // ---- Cashu ----

  predicate StatusClaimable(row: Order, expected: Status) {
    row.status == expected && row.cashuLockedAt.None?
  }

  predicate TokenInUse(rows: map<OrderId, Order>, token: Token, except: OrderId) {
    exists id :: id in rows && id != except && rows[id].cashuToken == Some(token)
  }

  predicate CashuLockable(rows: map<OrderId, Order>, id: OrderId, token: Token, expected: Status) {
    id in rows && StatusClaimable(rows[id], expected) && !TokenInUse(rows, token, id)
  }

  function CashuLocked(row: Order, mint: string, token: Token, lockedAt: int, newStatus: Status): Order {
    row.(cashuMint := Some(mint), cashuToken := Some(token), cashuLockedAt := Some(lockedAt), status := newStatus)
  }

  // ---- Selections ----

  predicate RetrySelects(row: Order) {
    row.failedPayment && row.status == SettledHoldInvoice && row.payoutHash.None?
  }

  predicate ReconcileSelects(row: Order, claimedBefore: int) {
    && row.payoutHash.Some? && row.status == SettledHoldInvoice
    && (row.payoutClaimedAt.None? || row.payoutClaimedAt.value <= claimedBefore)
  }

  predicate HeldInvoiceSelects(row: Order) {
    (row.invoiceHeldAt != 0 && EscrowBacked(row.status)) || (Waiting(row.status) && row.hash.Some?)
  }

  predicate TimeoutSelects(row: Order, expireTime: int) {
    row.takenAt < expireTime && Waiting(row.status)
  }

  predicate DeadlineSelects(row: Order, heldBefore: int) {
    && (row.status == Active || row.status == FiatSent)
    && row.invoiceHeldAt != 0
    && row.invoiceHeldAt <= heldBefore
    && row.hash.Some?
  }
}
