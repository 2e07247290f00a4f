/** Cashu escrow: takes that claim a pending order and then write the whole
    row from a stale copy, and locks that store the seller's token. Neither
    write is guarded; both are safe because of what each handler must have
    read before it. */
module Cashu {
  import opened Orders
  import opened Database
  import opened Runs

  // ---- Interleavings ----

  datatype TakePhase =
    | Loaded(snapshot: Order)                             // copy read at `pending`
    | Claimed(snapshot: Order, buyer: PubKey, seller: PubKey)
    | TakeDone

  datatype LockPhase =
    | Validated(token: Token)   // both trade keys read, token checked at the mint
    | Locked                    // compare-and-set done
    | Refetched(snapshot: Order)
    | LockDone

  datatype Taker = Taker(id: OrderId, phase: TakePhase)
  datatype Locker = Locker(id: OrderId, phase: LockPhase)

  /** The expiry job between its selection and its full-row write. */
  datatype Expiry = Expiry(id: OrderId, snapshot: Order)

  /** `locks` counts the successful locks of each order. */
  datatype State = State(
    rows: Rows,
    takers: map<nat, Taker>,
    lockers: map<nat, Locker>,
    expiries: map<nat, Expiry>,
    locks: map<OrderId, nat>)

  datatype Event =
    | TakeLoad(p: nat, id: OrderId)
    | TakeClaim(p: nat, buyer: PubKey, seller: PubKey)
    | TakeWrite(p: nat, eventId: EventId)
    | LockLoad(p: nat, id: OrderId, token: Token)
    | LockSwap(p: nat, mint: string, now: int)
    | LockRefetch(p: nat)
    | LockWrite(p: nat, eventId: EventId)
    | ExpireLoad(p: nat, id: OrderId)
    | ExpireWrite(p: nat, eventId: EventId)
    | Advance(id: OrderId, status: Status)

  /** The lock handler reads both trade keys off the row before anything else. */
  predicate BothKeys(row: Order) {
    row.buyerKey.Some? && row.sellerKey.Some?
  }

  predicate LockMayStart(row: Order) {
    row.status == WaitingPayment && BothKeys(row)
  }

  function TakenRow(snapshot: Order, buyer: PubKey, seller: PubKey, eventId: EventId): Order {
    snapshot.(status := WaitingPayment, buyerKey := Some(buyer), sellerKey := Some(seller), eventId := eventId)
  }

  function Count(s: State, id: OrderId): nat {
    if id in s.locks then s.locks[id] else 0
  }

  ghost predicate Next(s: State, e: Event, t: State) {
    match e
    case TakeLoad(p, id) =>
      && p !in s.takers && id in s.rows && s.rows[id].status == Pending
      && t == s.(takers := s.takers[p := Taker(id, Loaded(s.rows[id]))])
    case TakeClaim(p, buyer, seller) =>
      && p in s.takers && s.takers[p].phase.Loaded? && s.takers[p].id in s.rows
      && var tk := s.takers[p];
         t == if StatusClaimable(s.rows[tk.id], Pending)
              then s.(rows := s.rows[tk.id := s.rows[tk.id].(status := WaitingPayment)],
                      takers := s.takers[p := Taker(tk.id, Claimed(tk.phase.snapshot, buyer, seller))])
              else s.(takers := s.takers[p := Taker(tk.id, TakeDone)])
    case TakeWrite(p, eventId) =>
      && p in s.takers && s.takers[p].phase.Claimed? && s.takers[p].id in s.rows
      && var tk := s.takers[p];
         var taken := TakenRow(tk.phase.snapshot, tk.phase.buyer, tk.phase.seller, eventId);
         t == s.(rows := s.rows[tk.id := FullRow(s.rows[tk.id], taken)],
                 takers := s.takers[p := Taker(tk.id, TakeDone)])
    case LockLoad(p, id, token) =>
      && p !in s.lockers && id in s.rows && LockMayStart(s.rows[id])
      && t == s.(lockers := s.lockers[p := Locker(id, Validated(token))])
    case LockSwap(p, mint, now) =>
      && p in s.lockers && s.lockers[p].phase.Validated?
      && var lk := s.lockers[p];
         t == if CashuLockable(s.rows, lk.id, lk.phase.token, WaitingPayment)
              then s.(rows := s.rows[lk.id := CashuLocked(s.rows[lk.id], mint, lk.phase.token, now, Active)],
                      lockers := s.lockers[p := Locker(lk.id, Locked)],
                      locks := s.locks[lk.id := Count(s, lk.id) + 1])
              else s.(lockers := s.lockers[p := Locker(lk.id, LockDone)])
    case LockRefetch(p) =>
      && p in s.lockers && s.lockers[p].phase.Locked? && s.lockers[p].id in s.rows
      && t == s.(lockers := s.lockers[p := Locker(s.lockers[p].id, Refetched(s.rows[s.lockers[p].id]))])
    case LockWrite(p, eventId) =>
      && p in s.lockers && s.lockers[p].phase.Refetched? && s.lockers[p].id in s.rows
      && var lk := s.lockers[p];
         var active := lk.phase.snapshot.(status := Active, eventId := eventId);
         t == s.(rows := s.rows[lk.id := FullRow(s.rows[lk.id], active)],
                 lockers := s.lockers[p := Locker(lk.id, LockDone)])
    case ExpireLoad(p, id) =>
      && p !in s.expiries && id in s.rows && s.rows[id].status == Pending
      && t == s.(expiries := s.expiries[p := Expiry(id, s.rows[id])])
    case ExpireWrite(p, eventId) =>
      && p in s.expiries && s.expiries[p].id in s.rows
      && var x := s.expiries[p];
         t == s.(rows := s.rows[x.id := FullRow(s.rows[x.id], x.snapshot.(status := Expired, eventId := eventId))],
                 expiries := s.expiries - {p})
    case Advance(id, status) =>
      && id in s.rows && s.rows[id].cashuLockedAt.Some? && status != Pending && status != WaitingPayment
      && t == s.(rows := s.rows[id := s.rows[id].(status := status)])
  }

  /** An expiry that still finds its order on the book. */
  ghost predicate Timely(s: State, e: Event) {
    e.ExpireWrite? && e.p in s.expiries && s.expiries[e.p].id in s.rows ==> s.rows[s.expiries[e.p].id].status == Pending
  }

  ghost predicate TimelyNext(s: State, e: Event, t: State) {
    Next(s, e, t) && Timely(s, e)
  }

  /** The token and its lock time are stored together. */
  predicate Funded(row: Order) {
    row.cashuLockedAt.Some? && row.cashuToken.Some?
  }

  predicate Unfunded(row: Order) {
    row.cashuLockedAt.None? && row.cashuToken.None?
  }

  /** Orders fresh on the book: unfunded, and the taker's key still missing. */
  ghost predicate Initial(s: State) {
    && s.takers == map[] && s.lockers == map[] && s.expiries == map[] && s.locks == map[]
    && forall id :: id in s.rows ==> Unfunded(s.rows[id]) && s.rows[id].status == Pending && !BothKeys(s.rows[id])
  }

  ghost predicate RowInv(s: State, id: OrderId)
    requires id in s.rows
  {
    var row := s.rows[id];
    && (row.status == Pending ==> Unfunded(row) && !BothKeys(row))
    && (row.status == WaitingPayment ==> Unfunded(row))
    && (if Count(s, id) == 0 then Unfunded(row) else Count(s, id) == 1 && Funded(row))
  }

  /** An outstanding take write stands between a claim and any lock. */
  ghost predicate TakerInv(s: State, p: nat)
    requires p in s.takers
  {
    var tk := s.takers[p];
    && tk.id in s.rows
    && (tk.phase.Loaded? || tk.phase.Claimed? ==> Unfunded(tk.phase.snapshot))
    && (tk.phase.Claimed? ==>
          && s.rows[tk.id].status == WaitingPayment && !BothKeys(s.rows[tk.id])
          && forall q :: q in s.takers && s.takers[q].phase.Claimed? && s.takers[q].id == tk.id ==> q == p)
  }

  ghost predicate LockerInv(s: State, p: nat)
    requires p in s.lockers
  {
    var lk := s.lockers[p];
    && lk.id in s.rows
    && BothKeys(s.rows[lk.id]) && s.rows[lk.id].status != Pending
    && (lk.phase.Locked? || lk.phase.Refetched? ==> Funded(s.rows[lk.id]))
    && (lk.phase.Refetched? ==>
          && lk.phase.snapshot.cashuToken == s.rows[lk.id].cashuToken
          && lk.phase.snapshot.cashuLockedAt == s.rows[lk.id].cashuLockedAt
          && BothKeys(lk.phase.snapshot))
  }

  ghost predicate TokensDistinct(s: State) {
    forall i, j :: i in s.rows && j in s.rows && i != j && s.rows[i].cashuToken.Some? ==>
      s.rows[i].cashuToken != s.rows[j].cashuToken
  }

  ghost predicate Inv(s: State) {
    && (forall id :: id in s.rows ==> RowInv(s, id))
    && (forall p :: p in s.takers ==> TakerInv(s, p))
    && (forall p :: p in s.lockers ==> LockerInv(s, p))
    && (forall p :: p in s.expiries ==> Unfunded(s.expiries[p].snapshot) && !BothKeys(s.expiries[p].snapshot))
    && TokensDistinct(s)
  }

  ghost predicate ClaimOutstanding(s: State, id: OrderId) {
    exists p :: p in s.takers && s.takers[p].phase.Claimed? && s.takers[p].id == id
  }

  /** A write that keeps the escrow columns and the presence of the keys. */
  lemma QuietWriteKeepsInv(s: State, id: OrderId, row: Order, t: State)
    requires Inv(s) && id in s.rows && t == s.(rows := s.rows[id := row])
    requires row.cashuToken == s.rows[id].cashuToken && row.cashuLockedAt == s.rows[id].cashuLockedAt
    requires BothKeys(row) <==> BothKeys(s.rows[id])
    requires row.status == Pending ==> s.rows[id].status == Pending
    requires row.status == WaitingPayment ==> Unfunded(row)
    requires ClaimOutstanding(s, id) ==> row.status == WaitingPayment
    ensures Inv(t)
  {
    assert RowInv(s, id);
    forall x | x in t.rows ensures RowInv(t, x) { assert RowInv(s, x); }
    forall p | p in t.takers ensures TakerInv(t, p) { assert TakerInv(s, p); }
    forall p | p in t.lockers ensures LockerInv(t, p) { assert LockerInv(s, p); }
  }

  lemma TakerMoveKeepsInv(s: State, p: nat, taker: Taker, t: State)
    requires Inv(s) && t == s.(takers := s.takers[p := taker])
    requires TakerInv(t, p)
    ensures Inv(t)
  {
    forall x | x in t.rows ensures RowInv(t, x) { assert RowInv(s, x); }
    forall q | q in t.takers ensures TakerInv(t, q) { assert q != p ==> TakerInv(s, q); }
    forall q | q in t.lockers ensures LockerInv(t, q) { assert LockerInv(s, q); }
  }

  lemma LockerMoveKeepsInv(s: State, p: nat, locker: Locker, t: State)
    requires Inv(s) && t == s.(lockers := s.lockers[p := locker])
    requires LockerInv(t, p)
    ensures Inv(t)
  {
    forall x | x in t.rows ensures RowInv(t, x) { assert RowInv(s, x); }
    forall q | q in t.takers ensures TakerInv(t, q) { assert TakerInv(s, q); }
    forall q | q in t.lockers ensures LockerInv(t, q) { assert q != p ==> LockerInv(s, q); }
  }

  lemma TakeClaimKeepsInv(s: State, e: Event, t: State)
    requires Inv(s) && Next(s, e, t) && e.TakeClaim?
    ensures Inv(t)
  {
    var tk := s.takers[e.p];
    assert TakerInv(s, e.p) && RowInv(s, tk.id);
    if StatusClaimable(s.rows[tk.id], Pending) {
      ClaimWonKeepsInv(s, e, t);
    } else {
      TakerMoveKeepsInv(s, e.p, t.takers[e.p], t);
    }
  }

  lemma ClaimWonKeepsInv(s: State, e: Event, t: State)
    requires Inv(s) && Next(s, e, t) && e.TakeClaim? && StatusClaimable(s.rows[s.takers[e.p].id], Pending)
    ensures Inv(t)
  {
    var tk := s.takers[e.p];
    assert TakerInv(s, e.p) && RowInv(s, tk.id);
    var claimed := s.(rows := s.rows[tk.id := s.rows[tk.id].(status := WaitingPayment)]);
    QuietWriteKeepsInv(s, tk.id, claimed.rows[tk.id], claimed);
    forall q | q in s.takers && s.takers[q].phase.Claimed? ensures s.takers[q].id != tk.id {
      assert TakerInv(s, q);
    }
    TakerMoveKeepsInv(claimed, e.p, t.takers[e.p], t);
  }

  /** The take's full-row write meets no lock, because no lock handler can
      have read both keys while the claim was outstanding. */
  lemma TakeWriteKeepsInv(s: State, e: Event, t: State)
    requires Inv(s) && Next(s, e, t) && e.TakeWrite?
    ensures Inv(t)
  {
    var id := s.takers[e.p].id;
    assert TakerInv(s, e.p) && RowInv(s, id);
    forall x | x in t.rows ensures RowInv(t, x) { assert RowInv(s, x); }
    forall q | q in t.takers ensures TakerInv(t, q) { assert TakerInv(s, q); }
    forall q | q in t.lockers ensures LockerInv(t, q) { assert LockerInv(s, q); }
  }

  lemma LockSwapKeepsInv(s: State, e: Event, t: State)
    requires Inv(s) && Next(s, e, t) && e.LockSwap?
    ensures Inv(t)
  {
    var lk := s.lockers[e.p];
    assert LockerInv(s, e.p);
    if CashuLockable(s.rows, lk.id, lk.phase.token, WaitingPayment) {
      LockKeepsRows(s, e, t);
      LockKeepsTakers(s, e, t);
      LockKeepsLockers(s, e, t);
      LockKeepsTokensDistinct(s, e, t);
    } else {
      LockerMoveKeepsInv(s, e.p, t.lockers[e.p], t);
    }
  }

  lemma LockKeepsRows(s: State, e: Event, t: State)
    requires Inv(s) && Next(s, e, t) && e.LockSwap?
    ensures forall x :: x in t.rows ==> RowInv(t, x)
  {
    assert LockerInv(s, e.p);
    forall x | x in t.rows ensures RowInv(t, x) { assert RowInv(s, x); }
  }

  lemma LockKeepsTakers(s: State, e: Event, t: State)
    requires Inv(s) && Next(s, e, t) && e.LockSwap?
    ensures forall q :: q in t.takers ==> TakerInv(t, q)
  {
    assert LockerInv(s, e.p) && RowInv(s, s.lockers[e.p].id);
    forall q | q in t.takers ensures TakerInv(t, q) { assert TakerInv(s, q); }
  }

  lemma LockKeepsLockers(s: State, e: Event, t: State)
    requires Inv(s) && Next(s, e, t) && e.LockSwap?
    ensures forall q :: q in t.lockers ==> LockerInv(t, q)
  {
    assert LockerInv(s, e.p) && RowInv(s, s.lockers[e.p].id);
    forall q | q in t.lockers ensures LockerInv(t, q) { assert LockerInv(s, q); }
  }

  lemma LockKeepsTokensDistinct(s: State, e: Event, t: State)
    requires TokensDistinct(s) && Next(s, e, t) && e.LockSwap?
    ensures TokensDistinct(t)
  {
  }

  lemma LockWriteKeepsInv(s: State, e: Event, t: State)
    requires Inv(s) && Next(s, e, t) && e.LockWrite?
    ensures Inv(t)
  {
    var lk := s.lockers[e.p];
    assert LockerInv(s, e.p) && RowInv(s, lk.id);
    var written := s.(rows := t.rows);
    forall q | q in s.takers && s.takers[q].phase.Claimed? ensures s.takers[q].id != lk.id {
      assert TakerInv(s, q);
    }
    QuietWriteKeepsInv(s, lk.id, t.rows[lk.id], written);
    assert LockerInv(written, e.p);
    LockerMoveKeepsInv(written, e.p, t.lockers[e.p], t);
  }

  lemma OtherStepKeepsInv(s: State, e: Event, t: State)
    requires Inv(s) && Next(s, e, t)
    requires e.TakeLoad? || e.LockLoad? || e.LockRefetch? || e.ExpireLoad? || e.Advance?
    ensures Inv(t)
  {
    match e {
      case TakeLoad(p, id) =>
        assert RowInv(s, id);
        TakerMoveKeepsInv(s, p, t.takers[p], t);
      case LockLoad(p, id, _) =>
        assert RowInv(s, id);
        LockerMoveKeepsInv(s, p, t.lockers[p], t);
      case LockRefetch(p) =>
        assert LockerInv(s, p);
        LockerMoveKeepsInv(s, p, t.lockers[p], t);
      case ExpireLoad(_, id) =>
        assert RowInv(s, id);
        ExpiriesKeepInv(s, t);
      case Advance(id, _) =>
        assert RowInv(s, id);
        NoClaimUnlessWaiting(s, id);
        QuietWriteKeepsInv(s, id, t.rows[id], t);
    }
  }

  lemma ExpiriesKeepInv(s: State, t: State)
    requires Inv(s) && t == s.(expiries := t.expiries)
    requires forall p :: p in t.expiries ==> Unfunded(t.expiries[p].snapshot) && !BothKeys(t.expiries[p].snapshot)
    ensures Inv(t)
  {
    forall x | x in t.rows ensures RowInv(t, x) { assert RowInv(s, x); }
    forall q | q in t.takers ensures TakerInv(t, q) { assert TakerInv(s, q); }
    forall q | q in t.lockers ensures LockerInv(t, q) { assert LockerInv(s, q); }
  }

  lemma ExpireWriteKeepsInv(s: State, e: Event, t: State)
    requires Inv(s) && TimelyNext(s, e, t) && e.ExpireWrite?
    ensures Inv(t)
  {
    var id := s.expiries[e.p].id;
    assert RowInv(s, id);
    NoClaimUnlessWaiting(s, id);
    var written := s.(rows := t.rows);
    QuietWriteKeepsInv(s, id, t.rows[id], written);
    ExpiriesKeepInv(written, t);
  }

  lemma NoClaimUnlessWaiting(s: State, id: OrderId)
    requires Inv(s) && id in s.rows
    ensures ClaimOutstanding(s, id) ==> s.rows[id].status == WaitingPayment && Unfunded(s.rows[id])
  {
    assert RowInv(s, id);
    forall q | q in s.takers && s.takers[q].phase.Claimed? && s.takers[q].id == id
      ensures s.rows[id].status == WaitingPayment
    {
      assert TakerInv(s, q);
    }
  }

  lemma StepKeepsInv(s: State, e: Event, t: State)
    requires Inv(s) && TimelyNext(s, e, t)
    ensures Inv(t)
  {
    match e {
      case ExpireWrite(_, _) => ExpireWriteKeepsInv(s, e, t);
      case TakeClaim(_, _, _) => TakeClaimKeepsInv(s, e, t);
      case TakeWrite(_, _) => TakeWriteKeepsInv(s, e, t);
      case LockSwap(_, _, _) => LockSwapKeepsInv(s, e, t);
      case LockWrite(_, _) => LockWriteKeepsInv(s, e, t);
      case _ => OtherStepKeepsInv(s, e, t);
    }
  }

  lemma RunKeepsInv(states: seq<State>, events: seq<Event>, k: nat)
    requires IsRun(TimelyNext, states, events) && Initial(states[0])
    requires k < |states|
    ensures Inv(states[k])
  {
    forall s, e, t | Inv(s) && TimelyNext(s, e, t) ensures Inv(t) {
      StepKeepsInv(s, e, t);
    }
    InvariantOnRun(Inv, TimelyNext, states, events, k);
  }

  /** No order locks twice, and no two orders hold the same token, as long as
      every expiry still finds its order on the book. */
  lemma TokensExclusive(states: seq<State>, events: seq<Event>, k: nat, i: OrderId, j: OrderId)
    requires IsRun(TimelyNext, states, events) && Initial(states[0])
    requires k < |states| && i in states[k].rows && j in states[k].rows
    ensures Count(states[k], i) <= 1
    ensures Count(states[k], i) == 1 <==> states[k].rows[i].cashuToken.Some?
    ensures i != j && states[k].rows[i].cashuToken.Some? ==>
      states[k].rows[i].cashuToken != states[k].rows[j].cashuToken
  {
    RunKeepsInv(states, events, k);
    assert RowInv(states[k], i);
  }

  /** The first write that is not timely: it puts back the whole row the expiry
      job read while the order was on the book. */
  predicate ExpiresOver(s: State, e: Event, id: OrderId) {
    e.ExpireWrite? && e.p in s.expiries && s.expiries[e.p].id == id
  }

  /** Permanence, exactly: after any run of takes, locks and timely expiries the
      next step, whatever it is, loses a stored token if and only if it is an
      expiry write to that order. */
  lemma TokenLostIff(states: seq<State>, events: seq<Event>, e: Event, t: State, id: OrderId)
    requires IsRun(TimelyNext, states, events) && Initial(states[0])
    requires Next(states[|events|], e, t)
    requires id in states[|events|].rows && states[|events|].rows[id].cashuToken.Some?
    ensures id in t.rows
    ensures var before, after := states[|events|].rows[id], t.rows[id];
      (after.cashuToken == before.cashuToken && after.cashuLockedAt == before.cashuLockedAt) <==>
      !ExpiresOver(states[|events|], e, id)
  {
    RunKeepsInv(states, events, |events|);
    StepKeepsToken(states[|events|], e, t, id);
  }

  /** The row of a one-order table after its take, by buyer 1 from seller 2. */
  function Taken(row: Order): Order {
    TakenRow(row, 1, 2, 0)
  }

  function OneRow(row: Order, takers: map<nat, Taker>, lockers: map<nat, Locker>, snapshot: Order): State {
    State(map[0 := row], takers, lockers, map[0 := Expiry(0, snapshot)], map[])
  }

  lemma LoadedWhileExpiring(row: Order) returns (states: seq<State>, events: seq<Event>)
    requires row.status == Pending && Unfunded(row) && !BothKeys(row)
    ensures IsRun(TimelyNext, states, events) && Initial(states[0])
    ensures states[|events|] == OneRow(row, map[0 := Taker(0, Loaded(row))], map[], row)
  {
    var s0 := State(map[0 := row], map[], map[], map[], map[]);
    var s1 := OneRow(row, map[], map[], row);
    var s2 := OneRow(row, map[0 := Taker(0, Loaded(row))], map[], row);
    states, events := [s0], [];
    Extend(TimelyNext, states, events, s0, ExpireLoad(0, 0), s1);
    states, events := states + [s1], events + [ExpireLoad(0, 0)];
    Extend(TimelyNext, states, events, s1, TakeLoad(0, 0), s2);
    states, events := states + [s2], events + [TakeLoad(0, 0)];
  }

  /** The expiry job reads the order, then the order is taken. */
  lemma TakenWhileExpiring(row: Order) returns (states: seq<State>, events: seq<Event>)
    requires row.status == Pending && Unfunded(row) && !BothKeys(row)
    ensures IsRun(TimelyNext, states, events) && Initial(states[0])
    ensures states[|events|] == OneRow(Taken(row), map[0 := Taker(0, TakeDone)], map[], row)
  {
    states, events := LoadedWhileExpiring(row);
    var s2 := OneRow(row, map[0 := Taker(0, Loaded(row))], map[], row);
    var s3 := OneRow(row.(status := WaitingPayment), map[0 := Taker(0, Claimed(row, 1, 2))], map[], row);
    var s4 := OneRow(Taken(row), map[0 := Taker(0, TakeDone)], map[], row);
    Extend(TimelyNext, states, events, s2, TakeClaim(0, 1, 2), s3);
    states, events := states + [s3], events + [TakeClaim(0, 1, 2)];
    Extend(TimelyNext, states, events, s3, TakeWrite(0, 0), s4);
    states, events := states + [s4], events + [TakeWrite(0, 0)];
  }

  /** The loss is real: on any order fresh on the book, taken and locked while
      the expiry job publishes, the job's write throws the stored token away. */
  lemma LateExpiryLosesToken(row: Order, token: Token)
      returns (states: seq<State>, events: seq<Event>, before: State, after: State)
    requires row.status == Pending && Unfunded(row) && !BothKeys(row)
    ensures IsRun(TimelyNext, states, events) && Initial(states[0]) && states[|events|] == before
    ensures Next(before, ExpireWrite(0, 0), after)
    ensures 0 in before.rows && before.rows[0].cashuToken == Some(token) && before.rows[0].status == Active
    ensures 0 in after.rows && after.rows[0].cashuToken == None
  {
    states, events := TakenWhileExpiring(row);
    var s4 := OneRow(Taken(row), map[0 := Taker(0, TakeDone)], map[], row);
    var s5 := s4.(lockers := map[0 := Locker(0, Validated(token))]);
    before := s5.(rows := map[0 := CashuLocked(Taken(row), "", token, 0, Active)],
                  lockers := map[0 := Locker(0, Locked)],
                  locks := map[0 := 1]);
    after := before.(rows := map[0 := FullRow(before.rows[0], row.(status := Expired, eventId := 0))],
                     expiries := map[]);
    Extend(TimelyNext, states, events, s4, LockLoad(0, 0, token), s5);
    states, events := states + [s5], events + [LockLoad(0, 0, token)];
    Extend(TimelyNext, states, events, s5, LockSwap(0, "", 0), before);
    states, events := states + [before], events + [LockSwap(0, "", 0)];
  }

  /** So a stored token outlives every write of takes, locks and timely
      expiries, guarded or not. */
  lemma {:induction false} TokenPermanent(states: seq<State>, events: seq<Event>, i: nat, j: nat, id: OrderId)
    requires IsRun(TimelyNext, states, events) && Initial(states[0])
    requires i <= j < |states|
    requires id in states[i].rows && states[i].rows[id].cashuToken.Some?
    ensures id in states[j].rows
    ensures states[j].rows[id].cashuToken == states[i].rows[id].cashuToken
    ensures states[j].rows[id].cashuLockedAt == states[i].rows[id].cashuLockedAt
  {
    if i < j {
      TokenPermanent(states, events, i, j - 1, id);
      NextKeepsToken(states, events, j - 1, id);
    }
  }

  lemma NextKeepsToken(states: seq<State>, events: seq<Event>, k: nat, id: OrderId)
    requires IsRun(TimelyNext, states, events) && Initial(states[0]) && k < |events|
    requires id in states[k].rows && states[k].rows[id].cashuToken.Some?
    ensures id in states[k + 1].rows
    ensures states[k + 1].rows[id].cashuToken == states[k].rows[id].cashuToken
    ensures states[k + 1].rows[id].cashuLockedAt == states[k].rows[id].cashuLockedAt
  {
    RunKeepsInv(states, events, k);
    assert TimelyNext(states[k], events[k], states[k + 1]);
    assert RowInv(states[k], id);
    StepKeepsToken(states[k], events[k], states[k + 1], id);
  }

  lemma StepKeepsToken(s: State, e: Event, t: State, id: OrderId)
    requires Inv(s) && Next(s, e, t)
    requires id in s.rows && s.rows[id].cashuToken.Some?
    ensures id in t.rows
    ensures !ExpiresOver(s, e, id) ==>
      t.rows[id].cashuToken == s.rows[id].cashuToken && t.rows[id].cashuLockedAt == s.rows[id].cashuLockedAt
    ensures ExpiresOver(s, e, id) ==> t.rows[id].cashuToken == None
  {
    assert RowInv(s, id);
    if e.TakeWrite? { assert TakerInv(s, e.p) && RowInv(s, s.takers[e.p].id); }
    if e.LockWrite? { assert LockerInv(s, e.p); }
  }
}
