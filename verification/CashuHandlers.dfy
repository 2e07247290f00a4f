/** The two Cashu handlers as they run, uninterrupted: the take that asks the
    seller for an escrow, and the lock that stores it. */
module CashuHandlers {
  import opened Orders
  import opened Database

  datatype TakeAnswer = Refused | TakePublishFailed | TakePersistFailed | Requested

  /** `event`: the id of the published revision, if it could be published;
      `persisted`: the full-row write went through. */
  method ShowCashuEscrowRequest(db: Db, id: OrderId, snapshot: Order, buyer: PubKey, seller: PubKey,
                                event: Option<EventId>, persisted: bool) returns (a: TakeAnswer)
    modifies db`orders
    ensures a == Refused <==>
      !(id in old(db.orders) && old(db.orders)[id].status == Pending && old(db.orders)[id].cashuLockedAt == None)
    ensures a == TakePublishFailed ==> event.None?
    ensures a == TakePersistFailed ==> event.Some? && !persisted
    ensures a == Requested ==> event.Some? && persisted
    ensures a == Refused ==> db.orders == old(db.orders)
    ensures a == TakePublishFailed || a == TakePersistFailed ==>
      db.orders == old(db.orders)[id := old(db.orders)[id].(status := WaitingPayment)]
    ensures a == Requested ==>
      var before := old(db.orders)[id];
      db.orders == old(db.orders)[id := snapshot.(status := WaitingPayment, buyerKey := Some(buyer),
                                                  sellerKey := Some(seller), eventId := event.value,
                                                  payoutHash := before.payoutHash,
                                                  payoutClaimedAt := before.payoutClaimedAt)]
  {
    var won := db.ClaimOrderStatus(id, Pending, WaitingPayment);
    if !won { return Refused; }
    var order := snapshot.(status := WaitingPayment, buyerKey := Some(buyer), sellerKey := Some(seller));
    if event.None? { return TakePublishFailed; }
    if !persisted { return TakePersistFailed; }
    var _ := db.Update(id, order.(eventId := event.value));
    return Requested;
  }

  datatype Reason =
    | NotFound | InvalidPeer | NotAllowedByStatus | InvalidCashuToken | InvalidMintUrl
    | CashuMintUnavailable | InvalidAmount | Internal

  datatype MintError = BadUrl | Unreachable | ClientError | BadToken | BadCondition

  function CashuReason(e: MintError): Reason {
    match e
    case BadUrl => InvalidMintUrl
    case Unreachable | ClientError => CashuMintUnavailable
    case BadToken | BadCondition => InvalidCashuToken
  }

  /** The mint's address without its trailing slashes. */
  function TrimSlashes(url: string): (r: string)
    ensures r <= url && (r == "" || r[|r| - 1] != '/')
    ensures forall i :: |r| <= i < |url| ==> url[i] == '/'
  {
    if url != "" && url[|url| - 1] == '/' then TrimSlashes(url[..|url| - 1]) else url
  }

  datatype Proof = Proof(token: Token, mint: string, buyer: PubKey, seller: PubKey, mostro: PubKey)

  datatype Answer = Rejected(reason: Reason) | NoOp | Notified

  /** What a compare-and-set that matched nothing means to the seller. A
      rejection always names a token that is not this order's escrow; silence
      never hides that a different token is. `reloaded`: the row could be read. */
  function ClassifyZeroRow(rows: Rows, id: OrderId, token: Token, reloaded: bool): (a: Answer)
    ensures a == Rejected(InvalidCashuToken) <==>
      || (exists other :: other in rows && other != id && rows[other].cashuToken == Some(token))
      || (reloaded && id in rows && rows[id].cashuLockedAt.Some? && rows[id].cashuToken != Some(token))
    ensures a == NoOp || a == Rejected(InvalidCashuToken)
    ensures a == NoOp && reloaded ==>
      id in rows && rows[id].cashuLockedAt.Some? ==> rows[id].cashuToken == Some(token)
  {
    if TokenInUse(rows, token, id) then Rejected(InvalidCashuToken)
    else if reloaded && id in rows && rows[id].cashuLockedAt.Some? && rows[id].cashuToken != Some(token)
    then Rejected(InvalidCashuToken)
    else NoOp
  }

  /** The sender is the seller of an order with both trade keys on it. */
  predicate FromSeller(rows: Rows, id: OrderId, sender: PubKey) {
    id in rows && rows[id].sellerKey == Some(sender) && rows[id].buyerKey.Some?
  }

  predicate AlreadyLocked(row: Order) {
    row.cashuLockedAt.Some? && row.status == Active
  }

  /** The proof names this order's keys, the node's key and the node's mint. */
  predicate Binds(proof: Proof, row: Order, mostro: PubKey, configuredMint: Option<string>) {
    && Some(proof.buyer) == row.buyerKey && Some(proof.seller) == row.sellerKey && proof.mostro == mostro
    && configuredMint.Some? && TrimSlashes(proof.mint) == TrimSlashes(configuredMint.value)
  }

  /** What the handler meets: the trade keys convert to Cashu keys, the token
      lookup can be read, there is a mint client, what the mint's validation
      said, the compare-and-set ran, and after a miss the second lookup and the
      row can be read; the id of the published revision. */
  datatype LockTurn = LockTurn(keysOk: bool, inUseRead: bool, connected: bool, mintError: Option<MintError>,
                               swapRun: bool, classified: bool, reloaded: bool, event: Option<EventId>)

  /** A first submission for an order that waits for its escrow. */
  predicate Submits(rows: Rows, id: OrderId, sender: PubKey, proof: Option<Proof>, configuredMint: Option<string>) {
    && FromSeller(rows, id, sender) && rows[id].status == WaitingPayment
    && proof.Some? && configuredMint.Some?
  }

  /** What the seller hears of each error the mint reports. */
  predicate MintRefuses(e: MintError, a: Answer) {
    && (e == BadUrl ==> a == Rejected(InvalidMintUrl))
    && (e == Unreachable || e == ClientError ==> a == Rejected(CashuMintUnavailable))
    && (e == BadToken || e == BadCondition ==> a == Rejected(InvalidCashuToken))
  }

  /** A submission is acknowledged only if the order now holds its token;
      otherwise nothing was written. */
  method AddCashuEscrow(db: Db, id: OrderId, sender: PubKey, proof: Option<Proof>, mostro: PubKey,
                        configuredMint: Option<string>, turn: LockTurn, now: int) returns (a: Answer)
    modifies db`orders
    ensures !a.Notified? ==> db.orders == old(db.orders)
    ensures a.Notified? ==>
      && id in old(db.orders) && id in db.orders && proof.Some?
      && old(db.orders)[id].sellerKey == Some(sender) && old(db.orders)[id].buyerKey.Some?
      && db.orders[id].status == Active && db.orders[id].cashuToken == Some(proof.value.token)
      && db.orders[id].cashuLockedAt.Some?
    ensures a.Notified? <==>
      && FromSeller(old(db.orders), id, sender) && proof.Some?
      && if AlreadyLocked(old(db.orders)[id]) then old(db.orders)[id].cashuToken == Some(proof.value.token)
         else && old(db.orders)[id].status == WaitingPayment && old(db.orders)[id].cashuLockedAt == None
              && !TokenInUse(old(db.orders), proof.value.token, id)
              && Binds(proof.value, old(db.orders)[id], mostro, configuredMint)
              && old(db.orders)[id].amount > 0
              && turn.keysOk && turn.inUseRead && turn.connected && turn.mintError.None? && turn.swapRun
    ensures a == Rejected(NotFound) <==> id !in old(db.orders)
    ensures a == Rejected(InvalidPeer) <==>
      id in old(db.orders) && old(db.orders)[id].sellerKey.Some? && old(db.orders)[id].sellerKey.value != sender
    ensures a == Rejected(NotAllowedByStatus) <==>
      && FromSeller(old(db.orders), id, sender)
      && !AlreadyLocked(old(db.orders)[id]) && old(db.orders)[id].status != WaitingPayment
    ensures Submits(old(db.orders), id, sender, proof, configuredMint) ==>
      var row, p := old(db.orders)[id], proof.value;
      if TrimSlashes(p.mint) != TrimSlashes(configuredMint.value) then a == Rejected(InvalidMintUrl)
      else if Some(p.buyer) != row.buyerKey || Some(p.seller) != row.sellerKey || p.mostro != mostro || !turn.keysOk
      then a == Rejected(InvalidCashuToken)
      else if row.amount <= 0 then a == Rejected(InvalidAmount)
      else if !turn.inUseRead then a == Rejected(Internal)
      else if TokenInUse(old(db.orders), p.token, id) then a == Rejected(InvalidCashuToken)
      else if !turn.connected then a == Rejected(Internal)
      else turn.mintError.Some? ==> MintRefuses(turn.mintError.value, a)
    ensures a.Notified? && AlreadyLocked(old(db.orders)[id]) ==> db.orders == old(db.orders)
    ensures a.Notified? && !AlreadyLocked(old(db.orders)[id]) ==>
      var before := old(db.orders)[id];
      var locked := before.(status := Active, cashuMint := configuredMint, cashuToken := Some(proof.value.token),
                            cashuLockedAt := Some(now));
      db.orders == old(db.orders)[id := if turn.event.Some? then locked.(eventId := turn.event.value) else locked]
  {
    if id !in db.orders { return Rejected(NotFound); }
    var order := db.orders[id];
    if order.sellerKey.None? { return Rejected(Internal); }
    if order.sellerKey.value != sender { return Rejected(InvalidPeer); }
    if order.buyerKey.None? { return Rejected(Internal); }
    var replayable := order.cashuLockedAt.Some? && order.status == Active;
    if !replayable && order.status != WaitingPayment { return Rejected(NotAllowedByStatus); }
    if proof.None? { return Rejected(InvalidCashuToken); }
    var p := proof.value;
    if replayable {
      if order.cashuToken != Some(p.token) { return Rejected(InvalidCashuToken); }
      return Notified;
    }
    if configuredMint.None? { return Rejected(Internal); }
    if TrimSlashes(p.mint) != TrimSlashes(configuredMint.value) { return Rejected(InvalidMintUrl); }
    if p.buyer != order.buyerKey.value || p.seller != order.sellerKey.value || p.mostro != mostro || !turn.keysOk {
      return Rejected(InvalidCashuToken);
    }
    if order.amount <= 0 { return Rejected(InvalidAmount); }
    if !turn.inUseRead { return Rejected(Internal); }
    if TokenInUse(db.orders, p.token, id) { return Rejected(InvalidCashuToken); }
    if !turn.connected { return Rejected(Internal); }
    if turn.mintError.Some? { return Rejected(CashuReason(turn.mintError.value)); }
    if !turn.swapRun { return Rejected(Internal); }
    var locked := db.UpdateOrderCashuEscrow(id, configuredMint.value, p.token, now, WaitingPayment, Active);
    if !locked {
      if !turn.classified { return Rejected(Internal); }
      a := ClassifyZeroRow(db.orders, id, p.token, turn.reloaded);
      return;
    }
    if turn.event.Some? {
      var _ := db.Update(id, db.orders[id].(status := Active, eventId := turn.event.value));
    }
    return Notified;
  }
}
