/** The failed-publish queue and one pass of the orderbook reconciler. */
module Republish {
  import opened Orders
  import opened Registry

  const MAX_ATTEMPTS: nat := 5
  const QUIESCENT_SECS: nat := 120

  type Byte = n: nat | n <= 255

  /** The generation that recorded the failure, and the attempts consumed. */
  datatype Entry = Entry(generation: nat, attempts: Byte)

  type Queue = map<OrderId, Entry>

  function SaturatingIncrement(n: Byte): Byte {
    if n == 255 then 255 else n + 1
  }

  /** A newer failure on record is never downgraded, and no count is lowered. */
  function Marked(q: Queue, id: OrderId, generation: nat): (r: Queue)
    ensures id in r && r[id].generation >= generation && r[id].attempts > 0
    ensures id in q ==> r[id].generation >= q[id].generation && r[id].attempts >= q[id].attempts
  {
    if id in q
    then q[id := Entry(Max(q[id].generation, generation), SaturatingIncrement(q[id].attempts))]
    else q[id := Entry(generation, 1)]
  }

  /** Merging keeps the larger generation and the larger count. */
  function Requeued(q: Queue, id: OrderId, e: Entry): (r: Queue)
    ensures id in r && r[id].generation >= e.generation && r[id].attempts >= e.attempts
    ensures id in q ==> r[id].generation >= q[id].generation && r[id].attempts >= q[id].attempts
  {
    if id in q
    then q[id := Entry(Max(q[id].generation, e.generation), Max(q[id].attempts, e.attempts))]
    else q[id := e]
  }

  function ClearedUpTo(q: Queue, id: OrderId, generation: nat): Queue {
    if id in q && q[id].generation <= generation then q - {id} else q
  }

  class RepublishQueue {
    var entries: Queue

    constructor ()
      ensures entries == map[]
    {
      entries := map[];
    }

    method MarkFailedAt(id: OrderId, generation: nat)
      modifies this
      ensures entries == Marked(old(entries), id, generation)
    {
      var entry := if id in entries then entries[id] else Entry(generation, 0);
      entry := entry.(generation := Max(entry.generation, generation));
      entry := entry.(attempts := SaturatingIncrement(entry.attempts));
      entries := entries[id := entry];
    }

    method Requeue(id: OrderId, generation: nat, attempts: Byte)
      modifies this
      ensures entries == Requeued(old(entries), id, Entry(generation, attempts))
    {
      var entry := if id in entries then entries[id] else Entry(generation, attempts);
      entry := entry.(generation := Max(entry.generation, generation));
      entry := entry.(attempts := Max(entry.attempts, attempts));
      entries := entries[id := entry];
    }

    method ClearUpTo(id: OrderId, generation: nat)
      modifies this
      ensures entries == ClearedUpTo(old(entries), id, generation)
    {
      if id in entries && entries[id].generation <= generation {
        entries := entries - {id};
      }
    }

    method TakeAll() returns (drained: Queue)
      modifies this
      ensures drained == old(entries) && entries == map[]
    {
      drained := entries;
      entries := map[];
    }
  }

  ghost predicate GenerationsBounded(q: Queue, generation: nat) {
    forall id :: id in q ==> q[id].generation <= generation
  }

  /** A failure found away from the stamping path is queued as newer than every
      publication stamped so far, so that none of their successes, however
      late, can clear it. */
  method MarkPublishFailed(queue: RepublishQueue, registry: OrderbookRegistry, id: OrderId)
    requires queue as object != registry as object
    requires GenerationsBounded(queue.entries, registry.generation)
    modifies queue, registry`generation
    ensures GenerationsBounded(queue.entries, registry.generation)
    ensures id in queue.entries && queue.entries.Keys == old(queue.entries).Keys + {id}
    ensures forall g :: 0 <= g <= old(registry.generation) ==> ClearedUpTo(queue.entries, id, g) == queue.entries
    ensures forall other :: other in queue.entries && other != id ==>
      other in old(queue.entries) && queue.entries[other] == old(queue.entries)[other]
  {
    var generation := registry.FreshGeneration();
    queue.MarkFailedAt(id, generation);
  }

  // ---- One reconciler pass ----

  /** What the database and the relays answer while one entry is handled. */
  datatype Attempt =
    | ReloadError | RowGone | BadStatus
    | TagsFailed | Unpublished | BuildFailed
    | Rejected | Accepted

  predicate Stamps(a: Attempt) { a.BuildFailed? || a.Rejected? || a.Accepted? }

  /** The fate of one queued entry: dropped, kept as it was, charged one more
      attempt, or charged one under the generation of the failed republish. */
  ghost predicate PassOutcome(e: Entry, a: Attempt, quiet: bool, floor: nat, result: Option<Entry>) {
    var charged := e.(attempts := SaturatingIncrement(e.attempts));
    if e.attempts >= 5 || a.RowGone? || a.BadStatus? then result == None
    else if a.ReloadError? || a.Unpublished? || (Stamps(a) && !quiet) then result == Some(e)
    else if a.TagsFailed? || a.BuildFailed? then result == Some(charged)
    else if a.Accepted? then result == None
    else result.Some? && floor < result.value.generation && result.value.attempts == charged.attempts
  }

  /** Nothing was stamped for the order in the last two minutes. */
  ghost predicate QuietNow(registry: OrderbookRegistry, id: OrderId, now: nat)
    reads registry.stamps
  {
    id !in registry.stamps.last || now >= registry.stamps.last[id] + 120
  }

  /** Publish one order's current row if it has been quiet long enough. */
  method RepublishIfQuiescent(queue: RepublishQueue, registry: OrderbookRegistry, id: OrderId, a: Attempt, now: nat)
      returns (ok: bool)
    requires queue as object != registry as object && queue as object != registry.stamps as object
    requires registry.Valid()
    requires !a.ReloadError? && !a.RowGone? && !a.BadStatus?
    requires id in queue.entries && queue.entries[id].generation <= registry.generation
    modifies queue, registry`generation, registry.stamps
    ensures registry.Valid()
    ensures !ok <==> a.TagsFailed? || (a.BuildFailed? && old(QuietNow(registry, id, now)))
    ensures var stamped := Stamps(a) && old(QuietNow(registry, id, now));
      && (if stamped
          then && registry.generation == old(registry.generation) + 1
               && registry.stamps.last == Prune(old(registry.stamps.last), now)[id := now]
          else && registry.generation == old(registry.generation)
               && registry.stamps.last == old(registry.stamps.last))
      && (if stamped && a.Accepted? then queue.entries == old(queue.entries) - {id}
          else if stamped && a.Rejected? then queue.entries == Marked(old(queue.entries), id, registry.generation)
          else queue.entries == old(queue.entries))
  {
    if a.TagsFailed? { return false; }
    if a.Unpublished? { return true; }
    var stamp := registry.TryStampQuiescent(id, now, QUIESCENT_SECS);
    if stamp.None? { return true; }
    if a.BuildFailed? { return false; }
    if a.Accepted? {
      queue.ClearUpTo(id, stamp.value.generation);
    } else {
      queue.MarkFailedAt(id, stamp.value.generation);
    }
    ok := true;
  }

  /** The loop body: one drained entry, absent from the queue until now. */
  method ReconcileEntry(queue: RepublishQueue, registry: OrderbookRegistry, id: OrderId, e: Entry, a: Attempt, now: nat,
                        ghost floor: nat)
    requires queue as object != registry as object && queue as object != registry.stamps as object
    requires registry.Valid()
    requires id !in queue.entries && e.generation <= floor <= registry.generation
    modifies queue, registry`generation, registry.stamps
    ensures registry.Valid() && old(registry.generation) <= registry.generation
    ensures forall other :: other in old(queue.entries) ==> other in queue.entries
    ensures forall other :: other in queue.entries && other != id ==>
      other in old(queue.entries) && queue.entries[other] == old(queue.entries)[other]
    ensures id in queue.entries ==> queue.entries[id].generation <= registry.generation
    ensures PassOutcome(e, a, old(QuietNow(registry, id, now)), floor, Lookup(queue.entries, id))
    ensures forall other, later: nat :: other != id && now + QUIESCENT_SECS <= later + MAX_AGE_SECS ==>
      QuietNow(registry, other, later) == old(QuietNow(registry, other, later))
  {
    if e.attempts >= MAX_ATTEMPTS || a.RowGone? || a.BadStatus? {
      return;
    }
    queue.Requeue(id, e.generation, e.attempts);
    if !a.ReloadError? {
      var ok := RepublishIfQuiescent(queue, registry, id, a, now);
      if !ok {
        queue.MarkFailedAt(id, e.generation);
      }
    }
  }

  /** The clock readings of one pass lie within the pruning age. */
  ghost predicate SteadyClock(nows: map<OrderId, nat>) {
    forall a, b :: a in nows && b in nows ==> nows[a] + QUIESCENT_SECS <= nows[b] + MAX_AGE_SECS
  }

  /** A whole pass, with nothing else publishing meanwhile; the clock is read
      anew for each order. */
  method ReconcileOnce(queue: RepublishQueue, registry: OrderbookRegistry, attempts: map<OrderId, Attempt>,
                       nows: map<OrderId, nat>)
    requires queue as object != registry as object && queue as object != registry.stamps as object
    requires registry.Valid()
    requires GenerationsBounded(queue.entries, registry.generation)
    requires queue.entries.Keys <= attempts.Keys && queue.entries.Keys <= nows.Keys && SteadyClock(nows)
    modifies queue, registry`generation, registry.stamps
    ensures registry.Valid()
    ensures GenerationsBounded(queue.entries, registry.generation)
    ensures queue.entries.Keys <= old(queue.entries).Keys
    ensures forall id :: id in old(queue.entries) ==>
      PassOutcome(old(queue.entries)[id], attempts[id], old(QuietNow(registry, id, nows[id])),
                  old(registry.generation), Lookup(queue.entries, id))
  {
    ghost var floor := registry.generation;
    ghost var quiet := set id | id in queue.entries && QuietNow(registry, id, nows[id]);
    var drained := queue.TakeAll();
    var todo := drained.Keys;
    while todo != {}
      invariant todo <= drained.Keys
      invariant registry.Valid() && floor <= registry.generation
      invariant GenerationsBounded(queue.entries, registry.generation)
      invariant queue.entries.Keys <= drained.Keys - todo
      invariant forall id :: id in todo ==> QuietNow(registry, id, nows[id]) == (id in quiet)
      invariant forall id :: id in drained && id !in todo ==>
        PassOutcome(drained[id], attempts[id], id in quiet, floor, Lookup(queue.entries, id))
    {
      var id :| id in todo;
      ReconcileEntry(queue, registry, id, drained[id], attempts[id], nows[id], floor);
      todo := todo - {id};
    }
  }
}
