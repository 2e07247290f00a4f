/** The advertised view of a pre-trade race. Every handler publishes its own
    transition before its compare-and-swap; a handler that misses reloads the
    row and republishes the state that won. */
module CasRace {
  import opened Orders
  import opened Registry
  import opened Relay
  import opened Runs
  import Writes = PreTrade

  /** Whether a status is published at all for this kind of order, and under
      which of the public names. */
  function StatusTags(kind: Kind, status: Status): (bool, Status) {
    match status
    case WaitingBuyerInvoice => (kind == Sell, InProgress)
    case WaitingPayment => (kind == Buy, InProgress)
    case Canceled | CanceledByAdmin | CooperativelyCanceled | Expired => (true, Canceled)
    case Success | CompletedByAdmin | Pending => (true, status)
    case WaitingTakerBond => (true, Pending)
    case _ => (false, status)
  }

  predicate Published(kind: Kind, status: Status) {
    StatusTags(kind, status).0
  }

  /** The public names: an order is `pending` exactly while it can be taken, a
      bond in progress included, `success` exactly on success, and `canceled`
      exactly when it ended without a trade, expiry included. */
  lemma PublicNames(kind: Kind, status: Status)
    ensures var (published, name) := StatusTags(kind, status);
      && (published && name == Pending <==> status in {Pending, WaitingTakerBond})
      && (published && name == Success <==> status == Success)
      && (published && name == Canceled <==> status in {Canceled, CanceledByAdmin, CooperativelyCanceled, Expired})
      && (published && name == CompletedByAdmin <==> status == CompletedByAdmin)
      && (published && name == InProgress ==> status in {WaitingPayment, WaitingBuyerInvoice})
      && (published ==> name in {Pending, InProgress, Success, Canceled, CompletedByAdmin})
  {
  }

  /** The public book shows a waiting order exactly when the taker owes the
      next move; while the maker does, the previous revision stays up. */
  lemma WaitingShownIffTakerOwes(kind: Kind, status: Status)
    requires Waiting(status)
    ensures Published(kind, status) <==> DutyHolder(status) != Maker(kind)
    ensures StatusTags(kind, status).1 == InProgress
  {
  }

  datatype Phase =
    | Ready | Announced | Won | Missed
    | Repaired | RepairFailed  // the repair is best effort

  /** A write that moves the row out of the pre-trade window. */
  type Exit = w: Writes.Write | (w.Swap? || w.Take?) && Writes.Issued(w) witness Writes.Swap(Canceled, 0)

  datatype Handler = Handler(w: Exit, phase: Phase)

  function Target(w: Exit): Status {
    if w.Swap? then w.newStatus else w.take.status
  }

  /** A revision in stamp order: who announced it, and the status it carries. */
  datatype News = News(author: Option<nat>, status: Status)

  datatype State = State(
    row: Order,
    last: Option<nat>,
    log: seq<Revision<News>>,
    handlers: map<nat, Handler>,
    winner: Option<nat>)

  /** A status that is not published leaves no revision and no stamp. The last
      stamp is never pruned here: under the 48-hour clock bound of
      `StampsStrictlyIncrease` pruning cannot be told from keeping. */
  function Publish(s: State, candidate: nat, id: EventId, news: News): State {
    if !Published(s.row.kind, news.status) then s else
    var stamp := NextStamp(s.last, candidate);
    s.(last := Some(stamp), log := s.log + [Revision(stamp, id, news)])
  }

  function SetPhase(s: State, h: nat, phase: Phase): State
    requires h in s.handlers
  {
    s.(handlers := s.handlers[h := s.handlers[h].(phase := phase)])
  }

  datatype Event =
    | Announce(h: nat, now: nat, id: EventId)
    | CompareAndSwap(h: nat)
    | Repair(h: nat, now: nat, id: EventId, ok: bool)

  ghost predicate Next(s: State, e: Event, t: State) {
    && e.h in s.handlers
    && var handler := s.handlers[e.h];
       match e
       case Announce(h, now, id) =>
         && handler.phase == Ready
         && t == SetPhase(Publish(s, now, id, News(Some(h), Target(handler.w))), h, Announced)
       case CompareAndSwap(h) =>
         && handler.phase == Announced
         && t == if Writes.Matches(handler.w, s.row)
                 then SetPhase(s, h, Won).(row := Writes.Apply(handler.w, s.row), winner := Some(h))
                 else SetPhase(s, h, Missed)
       case Repair(h, now, id, ok) =>
         && handler.phase == Missed
         && t == if ok then SetPhase(Publish(s, now + 1, id, News(None, s.row.status)), h, Repaired)
                 else SetPhase(s, h, RepairFailed)
  }

  ghost predicate Ordered(s: State) {
    && StrictlyOrdered(s.log)
    && (s.log != [] ==> s.last.Some? && Newest(s).createdAt <= s.last.value)
  }

  function Newest(s: State): Revision<News>
    requires s.log != []
  {
    s.log[|s.log| - 1]
  }

  /** Any number of handlers, none of which has started, on a row that is
      still pre-trade and whose revisions so far are ordered. */
  ghost predicate Initial(s: State) {
    && PreTrade(s.row.status) && s.winner == None
    && (forall h :: h in s.handlers ==> s.handlers[h].phase == Ready)
    && (forall i :: 0 <= i < |s.log| ==> PreTrade(s.log[i].content.status) && s.log[i].content.author == None)
    && Ordered(s)
  }

  /** The newest revision was announced by a handler that is in `phases`. */
  ghost predicate NewestPending(s: State, phases: set<Phase>) {
    && s.log != [] && Newest(s).content.author.Some?
    && Newest(s).content.author.value in s.handlers
    && s.handlers[Newest(s).content.author.value].phase in phases
  }

  ghost predicate NewestTrue(s: State) {
    s.log != [] && Newest(s).content.status == s.row.status
  }

  ghost predicate HandlersInv(s: State) {
    && (s.winner.None? <==> PreTrade(s.row.status))
    && (s.winner.Some? ==> s.winner.value in s.handlers && s.row.status == Target(s.handlers[s.winner.value].w))
    && forall h :: h in s.handlers ==>
         && (s.handlers[h].phase == Won <==> s.winner == Some(h))
         && (s.handlers[h].phase in {Missed, Repaired, RepairFailed} ==> s.winner.Some?)
  }

  ghost predicate LogInv(s: State) {
    forall i :: 0 <= i < |s.log| ==>
      var news := s.log[i].content;
      && Published(s.row.kind, news.status)
      && (news.author.Some? ==>
            news.author.value in s.handlers && news.status == Target(s.handlers[news.author.value].w))
  }

  ghost predicate NewestInv(s: State) {
    if s.winner.None? then
      forall h :: h in s.handlers && s.handlers[h].phase == Announced ==>
        Published(s.row.kind, Target(s.handlers[h].w)) ==> NewestPending(s, {Announced})
    else
      Published(s.row.kind, s.row.status) ==> NewestTrue(s) || NewestPending(s, {Announced, Missed, RepairFailed})
  }

  ghost predicate Inv(s: State) {
    Ordered(s) && HandlersInv(s) && LogInv(s) && NewestInv(s)
  }

  lemma WinningWrite(w: Exit, row: Order)
    requires PreTrade(row.status)
    ensures Writes.Apply(w, row).kind == row.kind
    ensures Writes.Apply(w, row).status == Target(w)
    ensures !PreTrade(Target(w))
  {
  }

  lemma PublishKeepsLog(s: State, candidate: nat, id: EventId, news: News)
    requires Ordered(s) && LogInv(s)
    requires news.author.Some? ==>
      news.author.value in s.handlers && news.status == Target(s.handlers[news.author.value].w)
    ensures var t := Publish(s, candidate, id, news); Ordered(t) && LogInv(t)
  {
  }

  lemma SwapKeepsLog(s: State, e: Event, t: State)
    requires Inv(s) && Next(s, e, t) && e.CompareAndSwap?
    ensures Ordered(t) && LogInv(t)
  {
    if PreTrade(s.row.status) {
      WinningWrite(s.handlers[e.h].w, s.row);
    }
  }

  lemma AnnounceKeepsLog(s: State, e: Event, t: State)
    requires Inv(s) && Next(s, e, t) && e.Announce?
    ensures Ordered(t) && LogInv(t)
  {
    PublishKeepsLog(s, e.now, e.id, News(Some(e.h), Target(s.handlers[e.h].w)));
  }

  lemma RepairKeepsLog(s: State, e: Event, t: State)
    requires Inv(s) && Next(s, e, t) && e.Repair?
    ensures Ordered(t) && LogInv(t)
  {
    PublishKeepsLog(s, e.now + 1, e.id, News(None, s.row.status));
  }

  lemma StepKeepsHandlers(s: State, e: Event, t: State)
    requires Inv(s) && Next(s, e, t)
    ensures HandlersInv(t)
  {
    if e.CompareAndSwap? && PreTrade(s.row.status) {
      WinningWrite(s.handlers[e.h].w, s.row);
    }
  }

  lemma AnnounceKeepsNewest(s: State, e: Event, t: State)
    requires Inv(s) && Next(s, e, t) && e.Announce?
    ensures NewestInv(t)
  {
  }

  lemma SwapKeepsNewest(s: State, e: Event, t: State)
    requires Inv(s) && Next(s, e, t) && e.CompareAndSwap?
    ensures NewestInv(t)
  {
    if PreTrade(s.row.status) {
      WinningWrite(s.handlers[e.h].w, s.row);
    }
  }

  lemma RepairKeepsNewest(s: State, e: Event, t: State)
    requires Inv(s) && Next(s, e, t) && e.Repair?
    ensures NewestInv(t)
  {
  }

  lemma StepKeepsInv(s: State, e: Event, t: State)
    requires Inv(s) && Next(s, e, t)
    ensures Inv(t)
  {
    StepKeepsHandlers(s, e, t);
    match e {
      case Announce(_, _, _) =>
        AnnounceKeepsLog(s, e, t);
        AnnounceKeepsNewest(s, e, t);
      case CompareAndSwap(_) =>
        SwapKeepsLog(s, e, t);
        SwapKeepsNewest(s, e, t);
      case Repair(_, _, _, _) =>
        RepairKeepsLog(s, e, t);
        RepairKeepsNewest(s, e, t);
    }
  }

  lemma RunKeepsInv(states: seq<State>, events: seq<Event>, k: nat)
    requires IsRun(Next, states, events) && Initial(states[0])
    requires k < |states|
    ensures Inv(states[k])
  {
    forall s, e, t | Inv(s) && Next(s, e, t) ensures Inv(t) {
      StepKeepsInv(s, e, t);
    }
    InvariantOnRun(Inv, Next, states, events, k);
  }

  /** Once a winner committed a published status, at every later moment the
      newest revision carries that status or belongs to a loser whose repair
      has not gone out yet (or failed). */
  lemma NewestTrueOrUnrepaired(states: seq<State>, events: seq<Event>, k: nat)
    requires IsRun(Next, states, events) && Initial(states[0])
    requires k < |states| && states[k].winner.Some?
    requires Published(states[k].row.kind, states[k].row.status)
    ensures NewestTrue(states[k]) || NewestPending(states[k], {Announced, Missed, RepairFailed})
  {
    RunKeepsInv(states, events, k);
  }

  /** A repair is dated one second ahead, or one past the order's last stamp:
      later than whatever was announced in its own second, and no later than
      that takes. */
  lemma RepairStamp(s: State, e: Event, t: State)
    requires Next(s, e, t) && e.Repair? && e.ok && Published(s.row.kind, s.row.status)
    ensures t.log != [] && t.log[..|t.log| - 1] == s.log && Newest(t).content == News(None, s.row.status)
    ensures e.now + 1 <= Newest(t).createdAt && (s.last.Some? ==> s.last.value < Newest(t).createdAt)
    ensures Newest(t).createdAt == e.now + 1 || (s.last.Some? && Newest(t).createdAt == s.last.value + 1)
  {
  }

  /** Every handler that started has finished, and no repair failed. */
  ghost predicate Settled(s: State) {
    s.winner.Some? && forall h :: h in s.handlers ==> s.handlers[h].phase in {Ready, Won, Repaired}
  }

  /** What a race can leave on the row that the book shows: a cancel, or a take
      in which the taker owes the next move. */
  predicate Shown(kind: Kind, status: Status) {
    status == Canceled || DutyHolder(status) != Maker(kind)
  }

  lemma WinnerShown(s: State)
    requires Inv(s) && s.winner.Some?
    ensures Published(s.row.kind, s.row.status) <==> Shown(s.row.kind, s.row.status)
    ensures StatusTags(s.row.kind, s.row.status).1 == (if s.row.status == Canceled then Canceled else InProgress)
  {
    assert s.row.status == Target(s.handlers[s.winner.value].w);
    if s.row.status != Canceled {
      WaitingShownIffTakerOwes(s.row.kind, s.row.status);
    }
  }

  /** When the dust settles the highest-stamped revision carries the winner's
      status exactly when that status is published at all: a cancel won, or a
      take after which the taker owes the next move. */
  lemma RepairConverges(states: seq<State>, events: seq<Event>, k: nat)
    requires IsRun(Next, states, events) && Initial(states[0])
    requires k < |states| && Settled(states[k])
    ensures NewestTrue(states[k]) <==> Published(states[k].row.kind, states[k].row.status)
    ensures NewestTrue(states[k]) <==> Shown(states[k].row.kind, states[k].row.status)
    ensures StrictlyOrdered(states[k].log)
  {
    RunKeepsInv(states, events, k);
    WinnerShown(states[k]);
  }

  /** And then every relay that received it, whatever else it received and in
      whatever order, shows the winner: as canceled, or as in progress. */
  lemma RelaysShowWinner(states: seq<State>, events: seq<Event>, k: nat, picks: seq<nat>)
    requires IsRun(Next, states, events) && Initial(states[0])
    requires k < |states| && Settled(states[k])
    requires Published(states[k].row.kind, states[k].row.status)
    requires forall p :: p in picks ==> p < |states[k].log|
    requires |states[k].log| - 1 in picks
    ensures Held(Pick(states[k].log, picks)).Some?
    ensures var shown := Held(Pick(states[k].log, picks)).value.content.status;
      && shown == states[k].row.status
      && StatusTags(states[k].row.kind, shown).1 == (if shown == Canceled then Canceled else InProgress)
  {
    RunKeepsInv(states, events, k);
    WinnerShown(states[k]);
    RepairConverges(states, events, k);
    HeldIsLatestDelivered(states[k].log, picks, |states[k].log| - 1);
  }

  /** A take racing a maker cancel. */
  function Duel(row: Order, log: seq<Revision<News>>, take: Order, taker: Phase, maker: Phase,
                winner: Option<nat>): State
    requires Waiting(take.status)
  {
    State(row, if log == [] then None else Some(10), log,
          map[0 := Handler(Writes.Take(take), taker), 1 := Handler(Writes.Swap(Canceled, 7), maker)], winner)
  }

  const OPENING := [Announce(0, 10, 6), Announce(1, 10, 7)]
  const STALE_CANCEL := [Revision(10, 7, News(Some(1), Canceled))]

  predicate Hidden(row: Order, take: Order) {
    row.kind == Sell && row.status == Pending && take.status == WaitingPayment
  }

  lemma DuelOpens(row: Order, take: Order) returns (states: seq<State>)
    requires Hidden(row, take)
    ensures IsRun(Next, states, OPENING)
    ensures Initial(states[0]) && states[0].row == row
    ensures states[2] == Duel(row, STALE_CANCEL, take, Announced, Announced, None)
  {
    states := [Duel(row, [], take, Ready, Ready, None), Duel(row, [], take, Announced, Ready, None),
               Duel(row, STALE_CANCEL, take, Announced, Announced, None)];
    assert Next(states[0], OPENING[0], states[1]);
    assert Next(states[1], OPENING[1], states[2]);
  }

  lemma DuelEnds(row: Order, take: Order)
    requires Hidden(row, take)
    ensures var taken := Writes.Apply(Writes.Take(take), row);
      && Next(Duel(row, STALE_CANCEL, take, Announced, Announced, None), CompareAndSwap(0),
              Duel(taken, STALE_CANCEL, take, Won, Announced, Some(0)))
      && Next(Duel(taken, STALE_CANCEL, take, Won, Announced, Some(0)), CompareAndSwap(1),
              Duel(taken, STALE_CANCEL, take, Won, Missed, Some(0)))
      && Next(Duel(taken, STALE_CANCEL, take, Won, Missed, Some(0)), Repair(1, 10, 8, true),
              Duel(taken, STALE_CANCEL, take, Won, Repaired, Some(0)))
      && taken.status == WaitingPayment
      && Settled(Duel(taken, STALE_CANCEL, take, Won, Repaired, Some(0)))
  {
    WinningWrite(Writes.Take(take), row);
  }

  /** An unpublished winner cannot be repaired: on a sell order a take that
      goes straight to `waiting-payment` beats a maker cancel, and the book
      keeps showing the cancel. */
  lemma UnpublishedWinnerStaysHidden(row: Order, take: Order)
      returns (states: seq<State>, events: seq<Event>, end: State)
    requires Hidden(row, take)
    ensures IsRun(Next, states, events) && states[|events|] == end
    ensures Initial(states[0]) && states[0].row == row
    ensures Settled(end) && end.row.status == WaitingPayment
    ensures end.log != [] && Newest(end).content.status == Canceled
  {
    var taken := Writes.Apply(Writes.Take(take), row);
    states := DuelOpens(row, take);
    events := OPENING;
    DuelEnds(row, take);
    var s3 := Duel(taken, STALE_CANCEL, take, Won, Announced, Some(0));
    var s4 := Duel(taken, STALE_CANCEL, take, Won, Missed, Some(0));
    end := Duel(taken, STALE_CANCEL, take, Won, Repaired, Some(0));
    Extend(Next, states, events, states[2], CompareAndSwap(0), s3);
    states, events := states + [s3], events + [CompareAndSwap(0)];
    Extend(Next, states, events, s3, CompareAndSwap(1), s4);
    states, events := states + [s4], events + [CompareAndSwap(1)];
    Extend(Next, states, events, s4, Repair(1, 10, 8, true), end);
    states, events := states + [end], events + [Repair(1, 10, 8, true)];
  }
}
