/** The whole publication protocol: handlers that stamp and send, the
    failed-publish queue, and the single reconciler that drains it, in every
    interleaving. */
module Publication {
  import opened Orders
  import opened Registry
  import opened Republish
  import opened Runs

  /** A publication between its stamp and its outcome. One whose failure was
      detected elsewhere only borrows a generation and can but fail. */
  datatype Send = Send(id: OrderId, generation: nat, published: bool)

  /** Where the reconciler stands with the order it is handling. */
  datatype Reconciler = Idle | Reseeded(id: OrderId, entry: Entry) | Sending(id: OrderId, generation: nat)

  /** Bookkeeping of the past, per order: the largest generations that failed,
      that succeeded on every relay, and that were given up; the failed
      attempts recorded in the current episode and the reconciler's share of
      them beyond the one that opened it. */
  datatype History = History(failed: nat, succeeded: nat, dropped: nat, recorded: nat, retried: nat)

  datatype State = State(
    generation: nat,
    queue: Queue,
    hand: Queue,
    reconciler: Reconciler,
    sends: set<Send>,
    past: map<OrderId, History>)

  function Past(s: State, id: OrderId): History {
    if id in s.past then s.past[id] else History(0, 0, 0, 0, 0)
  }

  predicate InPlay(s: State, id: OrderId) {
    id in s.queue || id in s.hand
  }

  /** An episode lasts while the order is queued or in the reconciler's hand. */
  function Settle(s: State, id: OrderId): State {
    if InPlay(s, id) then s
    else s.(past := s.past[id := Past(s, id).(recorded := 0, retried := 0)])
  }

  function Fail(s: State, id: OrderId, generation: nat, published: bool, retry: bool): State {
    var h := Past(s, id);
    s.(queue := Marked(s.queue, id, generation),
       past := s.past[id := h.(failed := if published then Max(h.failed, generation) else h.failed,
                               recorded := h.recorded + 1,
                               retried := if retry && InPlay(s, id) then h.retried + 1 else h.retried)])
  }

  function Succeed(s: State, id: OrderId, generation: nat): State {
    var h := Past(s, id);
    Settle(s.(queue := ClearedUpTo(s.queue, id, generation),
              past := s.past[id := h.(succeeded := Max(h.succeeded, generation))]), id)
  }

  /** Dropping ends the episode; failures recorded since the drain open the
      next one. */
  function Drop(s: State, id: OrderId): State
    requires id in s.hand
  {
    var h := Past(s, id);
    s.(hand := s.hand - {id},
       past := s.past[id := h.(dropped := Max(h.dropped, s.hand[id].generation), retried := 0,
                               recorded := if id in s.queue then s.queue[id].attempts else 0)])
  }

  function PutBack(s: State, id: OrderId): State
    requires id in s.hand
  {
    s.(queue := Requeued(s.queue, id, s.hand[id]), hand := s.hand - {id})
  }

  datatype Event =
    | StampSend(id: OrderId, published: bool)  // a handler stamps, or borrows a generation
    | Sent(send: Send, ok: bool)               // its outcome
    | Drain
    | GiveUp(id: OrderId)                      // attempts exhausted
    | RowLost(id: OrderId)                     // row vanished or unreadable status
    | ReloadFailed(id: OrderId)
    | Reseed(id: OrderId)
    | Skip                                     // not quiescent, or status not published
    | PreSendError                             // tags, ratings or event build
    | Restamp
    | Resent(ok: bool)

  ghost predicate Next(s: State, e: Event, t: State) {
    match e
    case StampSend(id, published) =>
      t == s.(generation := s.generation + 1, sends := s.sends + {Send(id, s.generation + 1, published)})
    case Sent(send, ok) =>
      && send in s.sends && (ok ==> send.published)
      && var left := s.(sends := s.sends - {send});
         t == if ok then Succeed(left, send.id, send.generation)
              else Fail(left, send.id, send.generation, true, false)
    case Drain =>
      s.hand == map[] && s.reconciler == Idle && t == s.(hand := s.queue, queue := map[])
    case GiveUp(id) =>
      s.reconciler == Idle && id in s.hand && s.hand[id].attempts >= MAX_ATTEMPTS && t == Drop(s, id)
    case RowLost(id) =>
      s.reconciler == Idle && id in s.hand && s.hand[id].attempts < MAX_ATTEMPTS && t == Drop(s, id)
    case ReloadFailed(id) =>
      s.reconciler == Idle && id in s.hand && s.hand[id].attempts < MAX_ATTEMPTS && t == PutBack(s, id)
    case Reseed(id) =>
      && s.reconciler == Idle && id in s.hand && s.hand[id].attempts < MAX_ATTEMPTS
      && t == PutBack(s, id).(reconciler := Reseeded(id, s.hand[id]))
    case Skip =>
      s.reconciler.Reseeded? && t == s.(reconciler := Idle)
    case PreSendError =>
      && s.reconciler.Reseeded?
      && t == Fail(s.(reconciler := Idle), s.reconciler.id, s.reconciler.entry.generation, false, true)
    case Restamp =>
      && s.reconciler.Reseeded?
      && t == s.(generation := s.generation + 1, reconciler := Sending(s.reconciler.id, s.generation + 1))
    case Resent(ok) =>
      && s.reconciler.Sending?
      && var idle := s.(reconciler := Idle);
         t == if ok then Succeed(idle, s.reconciler.id, s.reconciler.generation)
              else Fail(idle, s.reconciler.id, s.reconciler.generation, true, true)
  }

  const START := State(0, map[], map[], Idle, {}, map[])

  // ---- No newer failure is forgotten ----

  /** Every generation in circulation for the order was issued, and every
      queued one belongs to a failure that was recorded. */
  ghost predicate Accounted(s: State, id: OrderId) {
    var h := Past(s, id);
    && (forall x :: x in s.sends ==> x.generation <= s.generation)
    && h.failed <= s.generation
    && (id in s.queue ==> s.queue[id].generation <= h.failed)
    && (id in s.hand ==> s.hand[id].generation <= h.failed)
    && (s.reconciler.Reseeded? && s.reconciler.id == id ==> s.reconciler.entry.generation <= h.failed)
    && (s.reconciler.Sending? ==> s.reconciler.generation <= s.generation)
  }

  /** A failure no full success has overtaken is queued, or in hand, or was
      explicitly given up, under at least its own generation. */
  ghost predicate Unforgotten(s: State, id: OrderId) {
    var h := Past(s, id);
    h.failed > h.succeeded ==>
      || (id in s.queue && s.queue[id].generation >= h.failed)
      || (id in s.hand && s.hand[id].generation >= h.failed)
      || h.dropped >= h.failed
  }

  ghost predicate Faithful(s: State, id: OrderId) {
    Accounted(s, id) && Unforgotten(s, id)
  }

  lemma FailKeepsFailures(s: State, id: OrderId, generation: nat, published: bool, retry: bool, about: OrderId)
    requires Faithful(s, about)
    requires id == about ==> generation <= s.generation
    requires !published && id == about ==> generation <= Past(s, id).failed
    ensures Faithful(Fail(s, id, generation, published, retry), about)
  {
  }

  lemma SucceedKeepsFailures(s: State, id: OrderId, generation: nat, about: OrderId)
    requires Faithful(s, about)
    ensures Faithful(Succeed(s, id, generation), about)
  {
  }

  lemma HandKeepsFailures(s: State, id: OrderId, about: OrderId)
    requires Faithful(s, about) && id in s.hand
    ensures Faithful(Drop(s, id), about)
    ensures Faithful(PutBack(s, id), about)
  {
  }

  lemma StepKeepsFailures(s: State, e: Event, t: State, id: OrderId)
    requires Faithful(s, id)
    requires Next(s, e, t)
    ensures Faithful(t, id)
  {
    match e {
      case Sent(send, ok) =>
        var left := s.(sends := s.sends - {send});
        if ok { SucceedKeepsFailures(left, send.id, send.generation, id); }
        else { FailKeepsFailures(left, send.id, send.generation, true, false, id); }
      case GiveUp(x) => HandKeepsFailures(s, x, id);
      case RowLost(x) => HandKeepsFailures(s, x, id);
      case ReloadFailed(x) => HandKeepsFailures(s, x, id);
      case Reseed(x) => HandKeepsFailures(s, x, id);
      case PreSendError =>
        FailKeepsFailures(s.(reconciler := Idle), s.reconciler.id, s.reconciler.entry.generation, false, true, id);
      case Resent(ok) =>
        var idle := s.(reconciler := Idle);
        if ok { SucceedKeepsFailures(idle, s.reconciler.id, s.reconciler.generation, id); }
        else { FailKeepsFailures(idle, s.reconciler.id, s.reconciler.generation, true, true, id); }
      case _ =>
    }
  }

  /** In every state of every run, for every order. */
  lemma NoFailureForgotten(states: seq<State>, events: seq<Event>, k: nat, id: OrderId)
    requires IsRun(Next, states, events) && states[0] == START
    requires k < |states|
    ensures Accounted(states[k], id) && Unforgotten(states[k], id)
  {
    var inv := (s: State) => Faithful(s, id);
    forall s, e, t | inv(s) && Next(s, e, t) ensures inv(t) {
      StepKeepsFailures(s, e, t, id);
    }
    InvariantOnRun(inv, Next, states, events, k);
  }

  // ---- Bounded churn ----

  /** An entry's attempts cover the reconciler's retries of the episode, and
      never exceed the failures recorded in it. */
  ghost predicate Covers(e: Entry, h: History) {
    h.retried + 1 <= e.attempts <= h.recorded
  }

  ghost predicate Budgeted(s: State, id: OrderId) {
    var h := Past(s, id);
    && (!InPlay(s, id) ==> h.recorded == h.retried == 0)
    && (id in s.hand ==> Covers(s.hand[id], h) && !(s.reconciler != Idle && s.reconciler.id == id))
    && (id in s.queue ==> 1 <= s.queue[id].attempts <= h.recorded)
    && (id in s.queue && id !in s.hand ==> Covers(s.queue[id], h))
    && (s.reconciler != Idle && s.reconciler.id == id ==> h.retried < MAX_ATTEMPTS - 1)
    && h.retried <= MAX_ATTEMPTS - 1
  }

  lemma FailKeepsBudget(s: State, id: OrderId, generation: nat, published: bool, retry: bool, about: OrderId)
    requires Budgeted(s, about)
    requires retry && id == about ==> id !in s.hand && Past(s, id).retried < MAX_ATTEMPTS - 1
    requires retry ==> s.reconciler == Idle
    ensures Budgeted(Fail(s, id, generation, published, retry), about)
  {
  }

  lemma SucceedKeepsBudget(s: State, id: OrderId, generation: nat, about: OrderId)
    requires Budgeted(s, about)
    ensures Budgeted(Succeed(s, id, generation), about)
  {
  }

  lemma HandKeepsBudget(s: State, id: OrderId, about: OrderId)
    requires Budgeted(s, about) && id in s.hand
    ensures Budgeted(Drop(s, id), about)
    ensures Budgeted(PutBack(s, id), about)
  {
  }

  lemma StepKeepsBudget(s: State, e: Event, t: State, id: OrderId)
    requires Budgeted(s, id)
    requires Next(s, e, t)
    ensures Budgeted(t, id)
  {
    match e {
      case Sent(send, ok) =>
        var left := s.(sends := s.sends - {send});
        if ok { SucceedKeepsBudget(left, send.id, send.generation, id); }
        else { FailKeepsBudget(left, send.id, send.generation, true, false, id); }
      case GiveUp(x) => HandKeepsBudget(s, x, id);
      case RowLost(x) => HandKeepsBudget(s, x, id);
      case ReloadFailed(x) => HandKeepsBudget(s, x, id);
      case Reseed(x) => HandKeepsBudget(s, x, id);
      case PreSendError =>
        FailKeepsBudget(s.(reconciler := Idle), s.reconciler.id, s.reconciler.entry.generation, false, true, id);
      case Resent(ok) =>
        var idle := s.(reconciler := Idle);
        if ok { SucceedKeepsBudget(idle, s.reconciler.id, s.reconciler.generation, id); }
        else { FailKeepsBudget(idle, s.reconciler.id, s.reconciler.generation, true, true, id); }
      case _ =>
    }
  }

  /** Per episode the reconciler adds at most four failed publications to the
      one that opened it, whatever the handlers do meanwhile; and it gives an
      order up only after five recorded failures. */
  lemma BoundedChurn(states: seq<State>, events: seq<Event>, k: nat, id: OrderId)
    requires IsRun(Next, states, events) && states[0] == START
    requires k < |states|
    ensures Past(states[k], id).retried <= 4
    ensures k < |events| && events[k] == GiveUp(id) ==> Past(states[k], id).recorded >= 5
  {
    var inv := (s: State) => Budgeted(s, id);
    forall s, e, t | inv(s) && Next(s, e, t) ensures inv(t) {
      StepKeepsBudget(s, e, t, id);
    }
    InvariantOnRun(inv, Next, states, events, k);
    assert k < |events| ==> Next(states[k], events[k], states[k + 1]);
  }
}
