/**
 * The in-memory outbox: a map of durable messages whose `next_attempt_at` is
 * both the retry schedule and the claim lease, and the dead-letter sweep.
 */
module OutboxStore {
  import opened Common
  import opened Sorting

  type Key(==, !new)
  type Body(!new)
  type Reason(!new)

  /** UUID v7 ids are ordered and unique; only that is used of them. */
  type MsgId = nat

  datatype Status = Pending | Published | Failed | DeadLettered

  datatype OutboxMessage = OutboxMessage(
    id: MsgId, key: Option<Key>, body: Body, status: Status, attempts: nat,
    createdAt: int, nextAttemptAt: int, lastError: Option<Reason>)

  type Store = map<MsgId, OutboxMessage>

  datatype DeadLetter = DeadLetter(id: MsgId, body: Body, reason: Option<Reason>, attempts: nat)

  ghost predicate WellKeyed(store: Store) {
    forall id :: id in store ==> store[id].id == id
  }

  // ---------------------------------------------------------------- message updates

  predicate Due(m: OutboxMessage, now: int) {
    m.status.Pending? && m.nextAttemptAt <= now
  }

  function Leased(m: OutboxMessage, until: int): OutboxMessage {
    m.(nextAttemptAt := until)
  }

  function Attempted(m: OutboxMessage): OutboxMessage {
    m.(attempts := m.attempts + 1)
  }

  function MarkedPublished(m: OutboxMessage): OutboxMessage {
    m.(status := Published, lastError := None)
  }

  function MarkedFailed(m: OutboxMessage, reason: Reason): OutboxMessage {
    m.(status := Failed, lastError := Some(reason))
  }

  function Parked(m: OutboxMessage): DeadLetter {
    DeadLetter(m.id, m.body, m.lastError, m.attempts)
  }

  /** What a stored message keeps, whatever happens to it. */
  ghost predicate SameMessage(m: OutboxMessage, m': OutboxMessage) {
    m'.id == m.id && m'.key == m.key && m'.body == m.body && m'.createdAt == m.createdAt
  }

  ghost predicate MessagesKept(store: Store, store': Store) {
    forall id :: id in store ==> id in store' && SameMessage(store[id], store'[id])
  }

  // ---------------------------------------------------------------- batches

  function DueIds(store: Store, now: int): set<MsgId> {
    set id | id in store && Due(store[id], now)
  }

  function FailedIds(store: Store): set<MsgId> {
    set id | id in store && store[id].status.Failed?
  }

  function CreationKey(store: Store, id: MsgId): (int, int) {
    (if id in store then store[id].createdAt else 0, id)
  }

  /** An uninterrupted `pending` claims the oldest due messages, id breaking ties. */
  ghost predicate OldestDue(store: Store, now: int, limit: nat, picked: seq<MsgId>) {
    SmallestBy(DueIds(store, now), id => CreationKey(store, id), limit, picked)
  }

  ghost predicate OldestFailed(store: Store, limit: nat, picked: seq<MsgId>) {
    SmallestBy(FailedIds(store), id => CreationKey(store, id), limit, picked)
  }

  function AfterClaims(store: Store, picked: seq<MsgId>, until: int): Store {
    map id | id in store :: if id in picked then Leased(store[id], until) else store[id]
  }

  function AfterSweep(store: Store, picked: seq<MsgId>): Store {
    map id | id in store :: if id in picked then store[id].(status := DeadLettered) else store[id]
  }

  /** The rows named by `picked`, as stored. */
  function Copies(store: Store, picked: seq<MsgId>): seq<OutboxMessage>
    requires forall id :: id in picked ==> id in store
  {
    seq(|picked|, i requires 0 <= i < |picked| => store[picked[i]])
  }

  function Records(ms: seq<OutboxMessage>): seq<DeadLetter> {
    seq(|ms|, i requires 0 <= i < |ms| => Parked(ms[i]))
  }

  class InMemoryOutbox {
    var store: Store
    const claimLease: int

    ghost predicate Valid() reads this {
      WellKeyed(store)
    }

    constructor (claimLease: int)
      ensures Valid() && store == map[] && this.claimLease == claimLease
    {
      this.claimLease := claimLease;
      store := map[];
    }

    method Insert(m: OutboxMessage)
      requires Valid()
      modifies this
      ensures Valid() && store == old(store)[m.id := m]
    {
      store := store[m.id := m];
    }

    /** Both passes of `pending` with nobody in between: read and sort the due, then re-check and lease each. */
    method Pending(now: int, limit: nat) returns (claimed: seq<OutboxMessage>, ghost picked: seq<MsgId>)
      requires Valid()
      modifies this
      ensures Valid()
      ensures OldestDue(old(store), now, limit, picked)
      ensures store == AfterClaims(old(store), picked, now + claimLease)
      ensures (forall id :: id in picked ==> id in store) && claimed == Copies(store, picked)
      // Written out: only `nextAttemptAt` of the claimed changes. `PickedAreOldest` says which are picked.
      ensures |claimed| == |picked| && store.Keys == old(store).Keys
      ensures forall k :: 0 <= k < |picked| ==>
                picked[k] in old(store) && claimed[k] == old(store)[picked[k]].(nextAttemptAt := now + claimLease)
      ensures forall id :: id in store ==>
                store[id] == if id in picked then old(store)[id].(nextAttemptAt := now + claimLease) else old(store)[id]
    {
      var snapshot := store;
      var candidates := SelectSmallest(DueIds(store, now), id => CreationKey(snapshot, id), limit);
      picked := candidates;
      claimed := [];
      for i := 0 to |candidates|
        invariant store == AfterClaims(snapshot, candidates[..i], now + claimLease)
        invariant |claimed| == i
        invariant forall k :: 0 <= k < i ==> candidates[k] in snapshot && claimed[k] == Leased(snapshot[candidates[k]], now + claimLease)
      {
        var id := candidates[i];
        assert id in DueIds(snapshot, now);
        OneMoreClaim(snapshot, candidates, i, now + claimLease);
        if id in store && Due(store[id], now) {
          store := store[id := Leased(store[id], now + claimLease)];
          claimed := claimed + [store[id]];
        }
      }
      assert candidates[..|candidates|] == candidates;
      assert forall id :: id in picked ==> id in DueIds(snapshot, now);
    }

    method ScheduleRetry(id: MsgId, at: int) returns (found: bool)
      requires Valid()
      modifies this
      ensures Valid() && found == (id in old(store))
      ensures store == if found then old(store)[id := Leased(old(store)[id], at)] else old(store)
      ensures found ==> store[id] == old(store)[id].(nextAttemptAt := at)
    {
      found := id in store;
      if found {
        store := store[id := store[id].(nextAttemptAt := at)];
      }
    }

    method RecordAttempt(id: MsgId) returns (found: bool)
      requires Valid()
      modifies this
      ensures Valid() && found == (id in old(store))
      ensures store == if found then old(store)[id := Attempted(old(store)[id])] else old(store)
      ensures found ==> store[id] == old(store)[id].(attempts := old(store)[id].attempts + 1)
    {
      found := id in store;
      if found {
        store := store[id := store[id].(attempts := store[id].attempts + 1)];
      }
    }

    method MarkPublished(id: MsgId) returns (found: bool)
      requires Valid()
      modifies this
      ensures Valid() && found == (id in old(store))
      ensures store == if found then old(store)[id := MarkedPublished(old(store)[id])] else old(store)
      ensures found ==> store[id] == old(store)[id].(status := Published, lastError := None)
    {
      found := id in store;
      if found {
        store := store[id := store[id].(status := Published, lastError := None)];
      }
    }

    method MarkFailed(id: MsgId, reason: Reason) returns (found: bool)
      requires Valid()
      modifies this
      ensures Valid() && found == (id in old(store))
      ensures store == if found then old(store)[id := MarkedFailed(old(store)[id], reason)] else old(store)
      ensures found ==> store[id] == old(store)[id].(status := Failed, lastError := Some(reason))
    {
      found := id in store;
      if found {
        store := store[id := store[id].(status := Failed, lastError := Some(reason))];
      }
    }

    /** `sweep_failed_to_dead_letter`: parks the oldest failed messages, one record each, and marks them. */
    method SweepFailedToDeadLetter(limit: nat, dlq: seq<DeadLetter>)
      returns (dlq': seq<DeadLetter>, swept: nat, ghost picked: seq<MsgId>)
      requires Valid()
      modifies this
      ensures Valid()
      ensures OldestFailed(old(store), limit, picked) && swept == |picked|
      ensures forall id :: id in picked ==> id in old(store)
      ensures dlq' == dlq + Records(Copies(old(store), picked))
      ensures store == AfterSweep(old(store), picked)
      ensures |dlq'| == |dlq| + |picked| && dlq'[..|dlq|] == dlq && store.Keys == old(store).Keys
      ensures forall k :: 0 <= k < |picked| ==>
                var m := old(store)[picked[k]]; dlq'[|dlq| + k] == DeadLetter(m.id, m.body, m.lastError, m.attempts)
      ensures forall id :: id in store ==>
                store[id] == if id in picked then old(store)[id].(status := DeadLettered) else old(store)[id]
    {
      var snapshot := store;
      var failed := SelectSmallest(FailedIds(store), id => CreationKey(snapshot, id), limit);
      picked := failed;
      assert forall id :: id in picked ==> id in FailedIds(snapshot);
      dlq', swept := dlq, 0;
      while swept < |failed|
        invariant swept <= |failed|
        invariant store == AfterSweep(snapshot, failed[..swept])
        invariant dlq' == dlq + Records(Copies(snapshot, failed))[..swept]
      {
        var id := failed[swept];
        OneMoreSwept(snapshot, failed, swept);
        dlq' := dlq' + [Parked(snapshot[id])];
        store := store[id := store[id].(status := DeadLettered)];
        swept := swept + 1;
      }
      assert failed[..swept] == failed;
    }
  }

  /** The selection of `pending`: pending and due, oldest first with ties by id, and all of them if the limit allows. */
  lemma PickedAreOldest(store: Store, now: int, limit: nat, picked: seq<MsgId>)
    requires OldestDue(store, now, limit, picked)
    ensures |picked| <= limit
    ensures forall id :: id in picked ==> id in store && store[id].status == Pending && store[id].nextAttemptAt <= now
    ensures forall id :: id in store && store[id].status == Pending && store[id].nextAttemptAt <= now ==>
              id in picked || (|picked| == limit && forall k :: 0 <= k < |picked| ==> store[picked[k]].createdAt <= store[id].createdAt)
    ensures forall j, k :: 0 <= j < k < |picked| ==>
              || store[picked[j]].createdAt < store[picked[k]].createdAt
              || (store[picked[j]].createdAt == store[picked[k]].createdAt && picked[j] < picked[k])
  {
    assert forall id :: id in picked ==> id in DueIds(store, now);
    assert forall id :: id in store && Due(store[id], now) ==> id in DueIds(store, now);
    if |picked| < limit {
      ShortSelectionIsAll(DueIds(store, now), id => CreationKey(store, id), limit, picked);
    }
  }

  /** The same for `failed`. */
  lemma PickedAreFailed(store: Store, limit: nat, picked: seq<MsgId>)
    requires OldestFailed(store, limit, picked)
    ensures |picked| <= limit
    ensures forall id :: id in picked ==> id in store && store[id].status == Failed
    ensures forall id :: id in store && store[id].status == Failed ==>
              id in picked || (|picked| == limit && forall k :: 0 <= k < |picked| ==> store[picked[k]].createdAt <= store[id].createdAt)
    ensures forall j, k :: 0 <= j < k < |picked| ==>
              || store[picked[j]].createdAt < store[picked[k]].createdAt
              || (store[picked[j]].createdAt == store[picked[k]].createdAt && picked[j] < picked[k])
  {
    assert forall id :: id in picked ==> id in FailedIds(store);
    assert forall id :: id in store && store[id].status == Failed ==> id in FailedIds(store);
    if |picked| < limit {
      ShortSelectionIsAll(FailedIds(store), id => CreationKey(store, id), limit, picked);
    }
  }

  lemma OneMoreSwept(store: Store, picked: seq<MsgId>, i: nat)
    requires i < |picked| && forall id :: id in picked ==> id in store
    ensures AfterSweep(store, picked[..i + 1])
         == AfterSweep(store, picked[..i])[picked[i] := store[picked[i]].(status := DeadLettered)]
    ensures Records(Copies(store, picked))[..i + 1] == Records(Copies(store, picked))[..i] + [Parked(store[picked[i]])]
  {
    assert picked[..i + 1] == picked[..i] + [picked[i]];
  }

  lemma OneMoreClaim(store: Store, picked: seq<MsgId>, i: nat, until: int)
    requires Distinct(picked) && i < |picked| && picked[i] in store
    ensures AfterClaims(store, picked[..i], until)[picked[i]] == store[picked[i]]
    ensures AfterClaims(store, picked[..i + 1], until)
         == AfterClaims(store, picked[..i], until)[picked[i] := Leased(store[picked[i]], until)]
  {
    assert picked[..i + 1] == picked[..i] + [picked[i]];
    assert picked[i] !in picked[..i];
  }
}
