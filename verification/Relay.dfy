/** A relay under the replaceable-event rule of NIP-01, section "Kinds": the
    highest `created_at` is kept, and a tie keeps the lowest event id. */
module Relay {
  import opened Orders
  import opened Registry

  datatype Revision<C> = Revision(createdAt: nat, id: EventId, content: C)

  predicate Replaces<C>(e: Revision<C>, held: Revision<C>) {
    e.createdAt > held.createdAt || (e.createdAt == held.createdAt && e.id < held.id)
  }

  /** What a relay holds after a sequence of deliveries. */
  function Held<C>(deliveries: seq<Revision<C>>): Option<Revision<C>> {
    if deliveries == [] then None else
    var n := |deliveries| - 1;
    var before := Held(deliveries[..n]);
    if before.None? || Replaces(deliveries[n], before.value) then Some(deliveries[n]) else before
  }

  /** The relay holds something it was sent, and nothing it was sent is newer,
      or as new with a lower id. */
  lemma {:induction false} HeldIsUnbeaten<C>(deliveries: seq<Revision<C>>)
    requires deliveries != []
    ensures Held(deliveries).Some?
    ensures Held(deliveries).value in deliveries
    ensures var held := Held(deliveries).value;
      forall e :: e in deliveries ==>
        e.createdAt < held.createdAt || (e.createdAt == held.createdAt && held.id <= e.id)
  {
    var n := |deliveries| - 1;
    if n > 0 {
      HeldIsUnbeaten(deliveries[..n]);
      assert deliveries == deliveries[..n] + [deliveries[n]];
    }
  }

  /** Relays that saw the same events agree, whatever the order and the
      duplicates, as long as distinct events have distinct ids. */
  lemma RelaysAgree<C>(a: seq<Revision<C>>, b: seq<Revision<C>>)
    requires a != [] && b != []
    requires forall e :: e in a <==> e in b
    requires forall e, f :: e in a && f in a && e.id == f.id ==> e == f
    ensures Held(a) == Held(b)
  {
    HeldIsUnbeaten(a);
    HeldIsUnbeaten(b);
  }

  ghost predicate StrictlyOrdered<C>(revisions: seq<Revision<C>>) {
    forall i, j :: 0 <= i < j < |revisions| ==> revisions[i].createdAt < revisions[j].createdAt
  }

  /** Deliveries picked by index: any subset, any order, any repetition. */
  function Pick<C>(revisions: seq<Revision<C>>, picks: seq<nat>): seq<Revision<C>>
    requires forall p :: p in picks ==> p < |revisions|
  {
    seq(|picks|, i requires 0 <= i < |picks| => assert picks[i] in picks; revisions[picks[i]])
  }

  /** With strictly ordered revisions the relay ends on the latest one it was
      sent; the ids never matter. */
  lemma HeldIsLatestDelivered<C>(revisions: seq<Revision<C>>, picks: seq<nat>, latest: nat)
    requires StrictlyOrdered(revisions)
    requires forall p :: p in picks ==> p < |revisions|
    requires latest in picks && forall p :: p in picks ==> p <= latest
    ensures Held(Pick(revisions, picks)) == Some(revisions[latest])
  {
    var sent := Pick(revisions, picks);
    HeldIsUnbeaten(sent);
    var l :| 0 <= l < |picks| && picks[l] == latest;
    assert sent[l] == revisions[latest] && !Replaces(sent[l], Held(sent).value);
    var h :| 0 <= h < |sent| && sent[h] == Held(sent).value;
    assert picks[h] in picks && sent[h] == revisions[picks[h]];
  }

  /** The revisions of one key, as stamped by a registry that also serves
      other keys: `at[i]` is the position of the i-th one in the log. */
  ghost predicate RevisionsOf<K, C>(log: seq<Request<K>>, key: K, at: seq<nat>, revisions: seq<Revision<C>>) {
    && |at| == |revisions|
    && (forall i :: 0 <= i < |at| ==> at[i] < |log| && log[at[i]].key == key)
    && (forall i, j :: 0 <= i < j < |at| ==> at[i] < at[j])
    && (forall i :: 0 <= i < |at| ==> revisions[i].createdAt == StampAt(log, at[i]))
  }

  /** Convergence: whatever part of an order's stamped revisions reaches a
      relay, in whatever order, the relay ends on the latest-stamped one. */
  lemma RelayConverges<K, C>(log: seq<Request<K>>, key: K, at: seq<nat>, revisions: seq<Revision<C>>,
                             picks: seq<nat>, latest: nat)
    requires ClockWithinMaxAge(log)
    requires RevisionsOf(log, key, at, revisions)
    requires forall p :: p in picks ==> p < |revisions|
    requires latest in picks && forall p :: p in picks ==> p <= latest
    ensures Held(Pick(revisions, picks)) == Some(revisions[latest])
  {
    forall i, j | 0 <= i < j < |revisions| ensures revisions[i].createdAt < revisions[j].createdAt {
      StampsStrictlyIncrease(log, at[i], at[j]);
    }
    HeldIsLatestDelivered(revisions, picks, latest);
  }
}
