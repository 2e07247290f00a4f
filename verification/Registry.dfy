/** The monotonic `created_at` registry of replaceable events: one last
    timestamp per key, pruned once the map is large, plus the process-wide
    publication generation that shares its lock. */
module Registry {
  import opened Orders

  const MAX_AGE_SECS: nat := 48 * 3600
  const PRUNE_THRESHOLD: nat := 16_384

  function Max(a: int, b: int): int { if a < b then b else a }

  /** Not before the candidate, and after the last revision on record. */
  predicate Allowed(last: Option<nat>, candidate: nat, t: int) {
    candidate <= t && (last.Some? ==> last.value < t)
  }

  /** `candidate`, bumped to strictly after the last revision on record: the
      least timestamp allowed. */
  function NextStamp(last: Option<nat>, candidate: nat): (stamp: nat)
    ensures Allowed(last, candidate, stamp) && forall t :: Allowed(last, candidate, t) ==> stamp <= t
  {
    if last.Some? && candidate < last.value + 1 then last.value + 1 else candidate
  }

  function Prune<K>(last: map<K, nat>, effective: nat): map<K, nat> {
    if |last| >= PRUNE_THRESHOLD
    then map k | k in last && last[k] + MAX_AGE_SECS > effective :: last[k]
    else last
  }

  // ---- Histories ----

  datatype Request<K> = Request(key: K, candidate: nat)

  /** The map after a whole history of stamps, starting from an empty one. */
  function After<K(==)>(log: seq<Request<K>>): map<K, nat>
    decreases |log|, 0
  {
    if log == [] then map[] else
    var n := |log| - 1;
    Prune(After(log[..n]), StampAt(log, n))[log[n].key := StampAt(log, n)]
  }

  /** The timestamp issued for the i-th request. */
  function StampAt<K(==)>(log: seq<Request<K>>, i: nat): nat
    requires i < |log|
    decreases i, 1
  {
    NextStamp(Lookup(After(log[..i]), log[i].key), log[i].candidate)
  }

  /** The clock assumption: no candidate lags the largest timestamp issued
      before it by 48 hours or more. */
  ghost predicate ClockWithinMaxAge<K>(log: seq<Request<K>>) {
    forall i, j :: 0 <= i < j < |log| ==> StampAt(log, i) < log[j].candidate + 172_800
  }

  lemma StampOfPrefix<K>(log: seq<Request<K>>, n: nat, i: nat)
    requires i < n <= |log|
    ensures StampAt(log[..n], i) == StampAt(log, i)
  {
    assert log[..n][..i] == log[..i];
  }

  /** What the map still knows about the i-th stamp: the key carries it or a
      later one, or it was dropped as 48 hours older than some other stamp. */
  ghost predicate Remembered<K>(log: seq<Request<K>>, i: nat)
    requires i < |log|
  {
    var m, k, s := After(log), log[i].key, StampAt(log, i);
    if k in m then s <= m[k]
    else exists j :: i < j < |log| && s + 172_800 <= StampAt(log, j)
  }

  lemma {:induction false} EveryStampRemembered<K>(log: seq<Request<K>>, i: nat)
    requires i < |log|
    requires ClockWithinMaxAge(log)
    ensures Remembered(log, i)
    decreases |log|
  {
    var n := |log| - 1;
    if i < n {
      var prefix, k := log[..n], log[i].key;
      ClockOfPrefix(log, n);
      EveryStampRemembered(prefix, i);
      StampOfPrefix(log, n, i);
      if k in After(prefix) {
        assert log[n].key != k && k !in After(log) ==> StampAt(log, i) + MAX_AGE_SECS <= StampAt(log, n);
      } else {
        var j :| i < j < n && StampAt(log, i) + MAX_AGE_SECS <= StampAt(prefix, j);
        StampOfPrefix(log, n, j);
        assert StampAt(log, j) < log[n].candidate + MAX_AGE_SECS;
      }
    }
  }

  lemma ClockOfPrefix<K>(log: seq<Request<K>>, n: nat)
    requires n <= |log|
    requires ClockWithinMaxAge(log)
    ensures ClockWithinMaxAge(log[..n])
  {
    forall i, j | 0 <= i < j < n ensures StampAt(log[..n], i) < log[..n][j].candidate + MAX_AGE_SECS {
      StampOfPrefix(log, n, i);
    }
  }

  /** Monotonicity survives pruning: over any history, the stamps of one key
      strictly increase in issue order. */
  lemma StampsStrictlyIncrease<K>(log: seq<Request<K>>, i: nat, j: nat)
    requires i < j < |log|
    requires log[i].key == log[j].key
    requires ClockWithinMaxAge(log)
    ensures StampAt(log, i) < StampAt(log, j)
  {
    ClockOfPrefix(log, j);
    EveryStampRemembered(log[..j], i);
    StampOfPrefix(log, j, i);
    if log[i].key !in After(log[..j]) {
      var l :| i < l < j && StampAt(log[..j], i) + MAX_AGE_SECS <= StampAt(log[..j], l);
      StampOfPrefix(log, j, l);
    }
  }

  // ---- Until the map is full ----

  lemma {:induction false} AfterFewStamps<K>(log: seq<Request<K>>, i: nat)
    requires i < |log| <= 16_384
    ensures |After(log)| <= |log|
    ensures log[i].key in After(log) && StampAt(log, i) <= After(log)[log[i].key]
  {
    var n := |log| - 1;
    if n > 0 {
      AfterFewStamps(log[..n], if i < n then i else 0);
    }
    if i < n {
      StampOfPrefix(log, n, i);
    }
  }

  /** Up to 16384 stamps nothing is ever dropped, and the stamps of one key
      strictly increase on any clock. */
  lemma FewStampsStrictlyIncrease<K>(log: seq<Request<K>>, i: nat, j: nat)
    requires i < j < |log| && j <= 16_384 && log[i].key == log[j].key
    ensures StampAt(log, i) < StampAt(log, j)
  {
    AfterFewStamps(log[..j], i);
    StampOfPrefix(log, j, i);
  }

  // ---- No stamp runs away ----

  function LargestCandidate<K>(log: seq<Request<K>>): nat {
    if log == [] then 0 else Max(LargestCandidate(log[..|log| - 1]), log[|log| - 1].candidate)
  }

  function StampsOf<K(==)>(log: seq<Request<K>>, key: K): nat {
    if log == [] then 0
    else StampsOf(log[..|log| - 1], key) + if log[|log| - 1].key == key then 1 else 0
  }

  lemma {:induction false} RecordBounded<K>(log: seq<Request<K>>, key: K)
    requires key in After(log)
    ensures After(log)[key] + 1 <= LargestCandidate(log) + StampsOf(log, key)
  {
    var n := |log| - 1;
    if key in After(log[..n]) {
      RecordBounded(log[..n], key);
    }
  }

  /** A stamp exceeds the largest candidate so far by at most the number of
      earlier stamps of its key. */
  lemma StampBounded<K>(log: seq<Request<K>>, i: nat)
    requires i < |log|
    ensures StampAt(log, i) <= LargestCandidate(log[..i + 1]) + StampsOf(log[..i], log[i].key)
  {
    assert log[..i + 1][..i] == log[..i];
    if log[i].key in After(log[..i]) {
      RecordBounded(log[..i], log[i].key);
    }
  }

  // ---- The 48-hour bound is tight ----

  /** Stamps for `n` different keys, all at second 0. */
  function Flood(n: nat): seq<Request<nat>> {
    seq(n, i => Request(i, 0))
  }

  lemma {:induction false} AfterFlood(n: nat)
    requires n <= PRUNE_THRESHOLD
    ensures forall i: nat :: i in After(Flood(n)) <==> i < n
    ensures forall i :: i in After(Flood(n)) ==> After(Flood(n))[i] == 0
    ensures |After(Flood(n))| == n
  {
    if n == 0 {
      assert After(Flood(0)) == map[];
    } else {
      var m: nat := n - 1;
      AfterFlood(m);
      var log, before := Flood(n), After(Flood(m));
      assert log[..m] == Flood(m);
      assert StampAt(log, m) == 0;
      assert After(log) == before[m := 0];
      assert m !in before;
    }
  }

  /** A full map, one stamp exactly 48 hours later for a new key, then the
      clock back at second 0: key 0 was pruned and its second revision ties
      with its first. */
  lemma ClockStepBackTies()
    ensures exists log: seq<Request<nat>>, i: nat, j: nat ::
      && i < j < |log| && log[i].key == log[j].key
      && StampAt(log, i) == StampAt(log, j)
      && |log| == 16_386
      && (forall k, l :: 0 <= k < l < |log| ==> StampAt(log, k) <= log[l].candidate + 172_800)
  {
    var n := PRUNE_THRESHOLD;
    var log := Flood(n) + [Request(n, MAX_AGE_SECS), Request(0, 0)];
    AfterFlood(n);
    assert log[..n] == Flood(n);
    assert StampAt(log, n) == MAX_AGE_SECS;
    assert log[..n + 1][..n] == Flood(n);
    StampOfPrefix(log, n + 1, n);
    assert After(log[..n + 1]) == map[n := MAX_AGE_SECS];
    assert StampAt(log, n + 1) == 0;
    forall k | 0 <= k < n ensures StampAt(log, k) == 0 {
      AfterFlood(k);
      assert log[..k] == Flood(k);
    }
    assert log[0].key == log[n + 1].key;
  }

  // ---- The registry itself ----

  /** Last `created_at` per key. The orderbook keys it by order id, the
      dispute events by `d` tag. */
  class TimestampMap<K(==)> {
    var last: map<K, nat>
    ghost var log: seq<Request<K>>

    ghost predicate Valid()
      reads this
    {
      last == After(log)
    }

    constructor ()
      ensures Valid() && log == []
    {
      last, log := map[], [];
    }

    method MonotonicCreatedAt(key: K, candidate: nat) returns (effective: nat)
      requires Valid()
      modifies this
      ensures Valid()
      ensures log == old(log) + [Request(key, candidate)]
      ensures effective == StampAt(log, |log| - 1)
      ensures candidate <= effective && (key in old(last) ==> old(last)[key] < effective)
      ensures effective == candidate || (key in old(last) && effective == old(last)[key] + 1)
      ensures last == Prune(old(last), effective)[key := effective]
    {
      effective := candidate;
      if key in last && candidate < last[key] + 1 {
        effective := last[key] + 1;
      }
      if |last| >= PRUNE_THRESHOLD {
        last := map k | k in last && last[k] + MAX_AGE_SECS > effective :: last[k];
      }
      last := last[key := effective];
      log := log + [Request(key, candidate)];
      assert log[..|log| - 1] == old(log);
    }
  }

  datatype Stamp = Stamp(createdAt: nat, generation: nat)

  /** The quiescence rule: no stamp while the last one is younger than
      `quiet` seconds. */
  predicate Quiet(last: Option<nat>, candidate: nat, quiet: nat) {
    last.None? || candidate >= last.value + quiet
  }

  class OrderbookRegistry {
    const stamps: TimestampMap<OrderId>
    var generation: nat

    ghost predicate Valid()
      reads this, stamps
    {
      stamps.Valid()
    }

    constructor ()
      ensures Valid() && fresh(stamps) && generation == 0 && stamps.log == []
    {
      stamps := new TimestampMap();
      generation := 0;
    }

    method StampOrderbookEvent(id: OrderId, candidate: nat) returns (stamp: Stamp)
      requires Valid()
      modifies this`generation, stamps
      ensures Valid()
      ensures stamps.log == old(stamps.log) + [Request(id, candidate)]
      ensures stamp.createdAt == StampAt(stamps.log, |stamps.log| - 1)
      ensures stamp.createdAt == NextStamp(old(Lookup(stamps.last, id)), candidate)
      ensures stamps.last == Prune(old(stamps.last), stamp.createdAt)[id := stamp.createdAt]
      ensures stamp.generation == generation == old(generation) + 1
    {
      var effective := stamps.MonotonicCreatedAt(id, candidate);
      generation := generation + 1;
      stamp := Stamp(effective, generation);
    }

    /** Refused stamps leave no trace; granted ones are strictly newer than
        anything on record for the order, by at least `quiet` seconds. */
    method TryStampQuiescent(id: OrderId, candidate: nat, quiet: nat) returns (stamp: Option<Stamp>)
      requires Valid()
      modifies this`generation, stamps
      ensures Valid()
      ensures stamp.Some? <==> Quiet(old(Lookup(stamps.last, id)), candidate, quiet)
      ensures stamp.None? ==>
        stamps.log == old(stamps.log) && stamps.last == old(stamps.last) && generation == old(generation)
      ensures stamp.Some? ==> stamps.log == old(stamps.log) + [Request(id, candidate)]
      ensures stamp.Some? ==> stamp.value.createdAt == StampAt(stamps.log, |stamps.log| - 1)
      ensures stamp.Some? ==> stamps.last == Prune(old(stamps.last), stamp.value.createdAt)[id := stamp.value.createdAt]
      ensures stamp.Some? && quiet > 0 ==> stamp.value.createdAt == candidate
      ensures stamp.Some? ==> stamp.value.generation == generation == old(generation) + 1
    {
      if id in stamps.last && candidate < stamps.last[id] + quiet {
        return None;
      }
      var granted := StampOrderbookEvent(id, candidate);
      stamp := Some(granted);
    }

    /** A generation for a failure detected away from the stamping path. */
    method FreshGeneration() returns (issued: nat)
      modifies this`generation
      ensures issued == generation == old(generation) + 1
    {
      generation := generation + 1;
      issued := generation;
    }
  }
}
