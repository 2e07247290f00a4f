/** The replay guard and the event-acceptance prologue that feeds it. */
module SpamGate {
  import opened Orders

  const REPLAY_WINDOW_SECS: int := 60
  const FRESHNESS_SECS: int := 10

  // ---- The guard against the whole history ----

  datatype Sighting = Sighting(id: EventId, at: int)

  function Recent(seen: map<EventId, int>, cutoff: int): map<EventId, int> {
    map id | id in seen && seen[id] >= cutoff :: seen[id]
  }

  /** The pruned map after a history of sightings. */
  function Seen(log: seq<Sighting>, window: nat): map<EventId, int> {
    if log == [] then map[] else
    var n := |log| - 1;
    Recent(Seen(log[..n], window), log[n].at - window)[log[n].id := log[n].at]
  }

  predicate GuardSaysReplay(log: seq<Sighting>, window: nat, id: EventId, now: int) {
    id in Recent(Seen(log, window), now - window)
  }

  /** What an unbounded memory would answer. */
  ghost predicate SightedWithin(log: seq<Sighting>, window: nat, id: EventId, now: int) {
    exists i :: 0 <= i < |log| && log[i].id == id && log[i].at >= now - window
  }

  ghost predicate NeverBack(log: seq<Sighting>) {
    forall i, j :: 0 <= i < j < |log| ==> log[i].at <= log[j].at
  }

  function LastSighting(log: seq<Sighting>, id: EventId): Option<int> {
    if log == [] then None
    else if log[|log| - 1].id == id then Some(log[|log| - 1].at)
    else LastSighting(log[..|log| - 1], id)
  }

  /** The latest clock reading since the last sighting of `id`. */
  function PeakSince(log: seq<Sighting>, id: EventId, now: int): int {
    if log == [] || log[|log| - 1].id == id then now
    else PeakSince(log[..|log| - 1], id, if log[|log| - 1].at > now then log[|log| - 1].at else now)
  }

  /** On any clock: an id is forgotten exactly when some reading since its last
      sighting was more than a window ahead of it. */
  lemma {:induction false} GuardOnAnyClock(log: seq<Sighting>, window: nat, id: EventId, now: int)
    ensures GuardSaysReplay(log, window, id, now) <==>
      var last := LastSighting(log, id);
      last.Some? && last.value >= PeakSince(log, id, now) - window
    ensures id in Seen(log, window) ==> LastSighting(log, id) == Some(Seen(log, window)[id])
  {
    if log != [] {
      var n := |log| - 1;
      GuardOnAnyClock(log[..n], window, id, if log[n].at > now then log[n].at else now);
    }
  }

  lemma {:induction false} LastIsLatest(log: seq<Sighting>, id: EventId, now: int)
    requires NeverBack(log) && (log != [] ==> log[|log| - 1].at <= now)
    ensures PeakSince(log, id, now) == now
    ensures forall i :: 0 <= i < |log| && log[i].id == id ==>
      LastSighting(log, id).Some? && log[i].at <= LastSighting(log, id).value
    ensures LastSighting(log, id).Some? ==>
      exists i :: 0 <= i < |log| && log[i].id == id && Some(log[i].at) == LastSighting(log, id)
  {
    if log != [] {
      var n := |log| - 1;
      if log[n].id != id {
        LastIsLatest(log[..n], id, now);
        assert forall i :: 0 <= i < n ==> log[..n][i] == log[i];
      }
    }
  }

  /** On a clock that never goes back the pruned map answers exactly as the
      full history would. */
  lemma GuardIsExact(log: seq<Sighting>, window: nat, id: EventId, now: int)
    requires NeverBack(log) && (log != [] ==> log[|log| - 1].at <= now)
    ensures GuardSaysReplay(log, window, id, now) <==> SightedWithin(log, window, id, now)
  {
    GuardOnAnyClock(log, window, id, now);
    LastIsLatest(log, id, now);
  }

  class ReplayGuard {
    const window: nat
    var seen: map<EventId, int>
    ghost var log: seq<Sighting>

    ghost predicate Valid()
      reads this
    {
      seen == Seen(log, window)
    }

    constructor (window: nat)
      ensures Valid() && this.window == window && log == []
    {
      this.window := window;
      seen, log := map[], [];
    }

    method CheckAndRecord(id: EventId, now: int) returns (replay: bool)
      requires Valid()
      modifies this
      ensures Valid()
      ensures log == old(log) + [Sighting(id, now)]
      ensures replay <==> GuardSaysReplay(old(log), window, id, now)
    {
      var cutoff := now - window;
      seen := map x | x in seen && seen[x] >= cutoff :: seen[x];
      replay := id in seen;
      seen := seen[id := now];
      log := log + [Sighting(id, now)];
      assert log[..|log| - 1] == old(log);
    }
  }

  // ---- Accepting an event ----

  datatype Incoming = Incoming(id: EventId, author: PubKey, kind: nat, powBits: nat, signatureOk: bool)

  datatype Unwrapped = Unwrapped(createdAt: int, identity: PubKey, sender: PubKey, signed: bool,
                                 tradeIndexOk: bool, verified: bool, hasAction: bool)

  datatype Policy = Policy(pow: nat, powFirstContact: nat, kind: nat)

  /** The checks before anything is recorded. */
  predicate Authentic(e: Incoming, p: Policy) {
    e.powBits >= p.pow && e.kind == p.kind && e.signatureOk
  }

  /** The checks on the decrypted message. */
  predicate Sound(u: Unwrapped, now: int) {
    && u.createdAt >= now - 10
    && (u.identity == u.sender || u.signed)
    && u.tradeIndexOk && u.verified && u.hasAction
  }

  class Gate {
    const replay: ReplayGuard
    var known: set<PubKey>

    ghost predicate Valid()
      reads this, replay
    {
      replay.Valid()
    }

    constructor (window: nat)
      ensures Valid() && fresh(replay) && replay.window == window && replay.log == [] && known == {}
    {
      replay := new ReplayGuard(window);
      known := {};
    }

    /** The latest snapshot replaces the set; it is not merged into it. */
    method SetKnown(keys: seq<PubKey>)
      modifies this`known
      ensures forall k :: k in known <==> k in keys
    {
      known := set k | k in keys;
    }

    /** `gated` is false on the old transport, which bypasses the gate. */
    method AcceptEvent(e: Incoming, p: Policy, gated: bool, gateNow: int, u: Option<Unwrapped>, now: int)
        returns (accepted: bool)
      requires Valid()
      modifies replay
      ensures Valid()
      ensures replay.log == if Authentic(e, p) && gated then old(replay.log) + [Sighting(e.id, gateNow)]
        else old(replay.log)
      ensures !Authentic(e, p) ==> !accepted && replay.seen == old(replay.seen)
      ensures accepted <==>
        && Authentic(e, p)
        && (gated ==>
              && !GuardSaysReplay(old(replay.log), replay.window, e.id, gateNow)
              && (e.author in known || e.powBits >= p.powFirstContact))
        && u.Some? && Sound(u.value, now)
    {
      if e.powBits < p.pow { return false; }
      if e.kind != p.kind { return false; }
      if !e.signatureOk { return false; }
      if gated {
        var isReplay := replay.CheckAndRecord(e.id, gateNow);
        if isReplay { return false; }
        if e.author !in known && e.powBits < p.powFirstContact { return false; }
      }
      if u.None? { return false; }
      if u.value.createdAt < now - FRESHNESS_SECS { return false; }
      if u.value.identity != u.value.sender && !u.value.signed { return false; }
      if !u.value.tradeIndexOk { return false; }
      if !u.value.verified { return false; }
      return u.value.hasAction;
    }
  }

  // ---- Whole runs ----

  /** An authentic delivery as the gate meets it: `at` is the gate's reading of
      the clock, `freshAt` the later one of the freshness check, and `passes`
      the outcome of all the other checks. */
  datatype Delivery = Delivery(id: EventId, createdAt: int, at: int, freshAt: int, passes: bool)

  function Log(ds: seq<Delivery>): seq<Sighting> {
    seq(|ds|, i requires 0 <= i < |ds| => Sighting(ds[i].id, ds[i].at))
  }

  predicate Accepted(ds: seq<Delivery>, k: nat)
    requires k < |ds|
  {
    && !GuardSaysReplay(Log(ds[..k]), REPLAY_WINDOW_SECS, ds[k].id, ds[k].at)
    && ds[k].createdAt >= ds[k].freshAt - FRESHNESS_SECS
    && ds[k].passes
  }

  /** The clock never goes back, and an id commits to its event's time. */
  ghost predicate RealRun(ds: seq<Delivery>) {
    && (forall i :: 0 <= i < |ds| ==> ds[i].at <= ds[i].freshAt)
    && (forall i, j :: 0 <= i < j < |ds| ==> ds[i].freshAt <= ds[j].at)
    && (forall i, j :: 0 <= i < j < |ds| && ds[i].id == ds[j].id ==> ds[i].createdAt == ds[j].createdAt)
  }

  /** An id sighted in the last minute, by whatever delivery, is refused; and
      one not sighted since is not refused as a replay. */
  lemma RefusedForAMinute(ds: seq<Delivery>, k: nat)
    requires RealRun(ds) && k < |ds|
    ensures (exists i :: 0 <= i < k && ds[i].id == ds[k].id && ds[i].at >= ds[k].at - 60) ==> !Accepted(ds, k)
    ensures (forall i :: 0 <= i < k && ds[i].id == ds[k].id ==> ds[i].at < ds[k].at - 60) ==>
      (Accepted(ds, k) <==> ds[k].createdAt >= ds[k].freshAt - 10 && ds[k].passes)
  {
    var log := Log(ds[..k]);
    GuardIsExact(log, REPLAY_WINDOW_SECS, ds[k].id, ds[k].at);
    forall i | 0 <= i < k ensures log[i] == Sighting(ds[i].id, ds[i].at) {
    }
  }

  ghost predicate AcceptedTwice(ds: seq<Delivery>, i: nat, j: nat) {
    i < j < |ds| && ds[i].id == ds[j].id && Accepted(ds, i) && Accepted(ds, j)
  }

  /** In no run is an event accepted twice whose `created_at` is at most 50
      seconds ahead of the clock when it was first let in. */
  lemma AcceptedAtMostOnce(ds: seq<Delivery>, i: nat, j: nat)
    requires RealRun(ds)
    requires i < j < |ds| && ds[i].id == ds[j].id && Accepted(ds, i)
    requires ds[i].createdAt <= ds[i].at + 50
    ensures !Accepted(ds, j)
  {
    var log := Log(ds[..j]);
    GuardIsExact(log, REPLAY_WINDOW_SECS, ds[j].id, ds[j].at);
    assert log[i] == Sighting(ds[i].id, ds[i].at);
    assert SightedWithin(log, REPLAY_WINDOW_SECS, ds[j].id, ds[j].at) || ds[i].at < ds[j].at - REPLAY_WINDOW_SECS;
  }

  /** And 50 seconds is exact: an event first let in at `at` can be accepted
      again in some run if and only if it is dated further ahead than that. */
  lemma AcceptedTwiceIff(id: EventId, createdAt: int, at: int)
    ensures (exists ds, i, j ::
               RealRun(ds) && AcceptedTwice(ds, i, j) && ds[i] == Delivery(id, createdAt, at, at, true))
      <==> createdAt > at + 50
  {
    if createdAt > at + 50 {
      var later := at + REPLAY_WINDOW_SECS + 1;
      var ds := [Delivery(id, createdAt, at, at, true), Delivery(id, createdAt, later, later, true)];
      assert Log(ds[..0]) == [];
      assert Log(ds[..1]) == [Sighting(id, at)];
      assert RealRun(ds) && AcceptedTwice(ds, 0, 1);
    } else {
      forall ds, i: nat, j: nat | RealRun(ds) && AcceptedTwice(ds, i, j)
        && ds[i] == Delivery(id, createdAt, at, at, true)
        ensures false
      {
        AcceptedAtMostOnce(ds, i, j);
      }
    }
  }
}
