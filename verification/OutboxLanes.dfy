/**
 * `OutboxDispatcher`: a claimed batch is partitioned into lanes, one per routing
 * key and one per key-less message; lanes run concurrently, a lane publishes
 * sequentially and stops at the first message it cannot deliver.
 */
module OutboxLanes {
  import opened Common
  import opened RetryPolicy
  import opened OutboxStore
  import opened OutboxLifecycle

  type Batch = seq<OutboxMessage>

  // ---------------------------------------------------------------- partition

  /** The messages of one key, in claim order. */
  function OfKey(batch: Batch, k: Key): Batch {
    if batch == [] then []
    else
      var n := |batch| - 1;
      OfKey(batch[..n], k) + (if batch[n].key == Some(k) then [batch[n]] else [])
  }

  function Flatten(lanes: seq<Batch>): Batch {
    if lanes == [] then [] else Flatten(lanes[..|lanes| - 1]) + lanes[|lanes| - 1]
  }

  /** A lane is a single key-less message or messages of one key. */
  ghost predicate LaneOk(lane: Batch) {
    && lane != []
    && (lane[0].key.None? ==> |lane| == 1)
    && (forall j :: 0 <= j < |lane| ==> lane[j].key == lane[0].key)
  }

  ghost predicate LanesOk(lanes: seq<Batch>) {
    && (forall i :: 0 <= i < |lanes| ==> LaneOk(lanes[i]))
    && (forall i, j :: 0 <= i < j < |lanes| && lanes[i][0].key.Some? ==> lanes[i][0].key != lanes[j][0].key)
  }

  ghost predicate HasLane(lanes: seq<Batch>, k: Key) {
    exists i :: 0 <= i < |lanes| && lanes[i] != [] && lanes[i][0].key == Some(k)
  }

  /**
   * The lanes are exactly the batch, split by key: each keyed lane is all of
   * its key in claim order, every key present has its lane, and no message is
   * lost or duplicated.
   */
  ghost predicate Partitions(batch: Batch, lanes: seq<Batch>) {
    && LanesOk(lanes)
    && (forall i :: 0 <= i < |lanes| && lanes[i][0].key.Some? ==> lanes[i] == OfKey(batch, lanes[i][0].key.value))
    && (forall k :: OfKey(batch, k) != [] ==> HasLane(lanes, k))
    && multiset(Flatten(lanes)) == multiset(batch)
  }

  function Appended(lanes: seq<Batch>, i: nat, m: OutboxMessage): seq<Batch>
    requires i < |lanes|
  {
    lanes[i := lanes[i] + [m]]
  }

  lemma {:induction false} FlattenAppended(lanes: seq<Batch>, i: nat, m: OutboxMessage)
    requires i < |lanes|
    ensures multiset(Flatten(Appended(lanes, i, m))) == multiset(Flatten(lanes)) + multiset{m}
  {
    var n := |lanes| - 1;
    var lanes' := Appended(lanes, i, m);
    if i == n {
      assert lanes'[..n] == lanes[..n];
    } else {
      FlattenAppended(lanes[..n], i, m);
      assert lanes'[..n] == Appended(lanes[..n], i, m);
    }
  }

  lemma OfKeySnoc(batch: Batch, m: OutboxMessage)
    ensures forall k :: OfKey(batch + [m], k) == OfKey(batch, k) + (if m.key == Some(k) then [m] else [])
  {
    assert (batch + [m])[..|batch|] == batch;
  }

  /** Lanes extended at their ends, or added, still serve the keys they served. */
  lemma LanesLast(lanes: seq<Batch>, lanes': seq<Batch>, k: Key)
    requires HasLane(lanes, k) && |lanes| <= |lanes'|
    requires forall i :: 0 <= i < |lanes| ==> lanes[i] <= lanes'[i]
    ensures HasLane(lanes', k)
  {
    var i :| 0 <= i < |lanes| && lanes[i] != [] && lanes[i][0].key == Some(k);
    assert lanes'[i][0] == lanes[i][0];
  }

  lemma NewLaneIsOk(lanes: seq<Batch>, m: OutboxMessage)
    requires LanesOk(lanes)
    requires m.key.Some? ==> forall i :: 0 <= i < |lanes| ==> lanes[i][0].key != m.key
    ensures LanesOk(lanes + [[m]])
  {
    assert LaneOk([m]);
  }

  lemma FlattenNewLane(lanes: seq<Batch>, m: OutboxMessage)
    ensures Flatten(lanes + [[m]]) == Flatten(lanes) + [m]
  {
    assert (lanes + [[m]])[..|lanes|] == lanes;
  }

  lemma NewLaneKeepsPartition(batch: Batch, lanes: seq<Batch>, m: OutboxMessage)
    requires Partitions(batch, lanes)
    requires m.key.Some? ==> forall i :: 0 <= i < |lanes| ==> lanes[i][0].key != m.key
    ensures Partitions(batch + [m], lanes + [[m]])
  {
    var lanes' := lanes + [[m]];
    NewLaneIsOk(lanes, m);
    FlattenNewLane(lanes, m);
    OfKeySnoc(batch, m);
    forall k | OfKey(batch + [m], k) != [] ensures HasLane(lanes', k) {
      if OfKey(batch, k) != [] {
        LanesLast(lanes, lanes', k);
      } else {
        assert lanes'[|lanes|][0].key == Some(k);
      }
    }
    assert forall k :: m.key == Some(k) ==> !HasLane(lanes, k) && OfKey(batch, k) == [];
  }

  lemma OldLaneIsOk(lanes: seq<Batch>, i: nat, m: OutboxMessage)
    requires LanesOk(lanes) && i < |lanes| && m.key.Some? && lanes[i][0].key == m.key
    ensures LanesOk(Appended(lanes, i, m))
    ensures forall j :: 0 <= j < |lanes| ==> Appended(lanes, i, m)[j][0] == lanes[j][0]
  {
    var lanes' := Appended(lanes, i, m);
    forall j | 0 <= j < |lanes| ensures lanes'[j] != [] && lanes'[j][0] == lanes[j][0] && LaneOk(lanes'[j]) {
      assert LaneOk(lanes[j]);
    }
  }

  lemma OldLaneKeepsPartition(batch: Batch, lanes: seq<Batch>, i: nat, m: OutboxMessage)
    requires Partitions(batch, lanes) && i < |lanes| && m.key.Some? && lanes[i][0].key == m.key
    ensures Partitions(batch + [m], Appended(lanes, i, m))
  {
    var lanes' := Appended(lanes, i, m);
    OfKeySnoc(batch, m);
    FlattenAppended(lanes, i, m);
    OldLaneIsOk(lanes, i, m);
    forall k | OfKey(batch + [m], k) != [] ensures HasLane(lanes', k) {
      assert m.key == Some(k) ==> lanes[i] != [];
      LanesLast(lanes, lanes', k);
    }
  }

  /** The lane that already carries a key. */
  function LaneFor(lanes: seq<Batch>, key: Option<Key>): (found: Option<nat>)
    ensures found.Some? ==> key.Some? && found.value < |lanes| && lanes[found.value] != [] && lanes[found.value][0].key == key
    ensures found.None? && key.Some? ==> forall i :: 0 <= i < |lanes| && lanes[i] != [] ==> lanes[i][0].key != key
  {
    if lanes == [] || key.None? then None
    else
      var n := |lanes| - 1;
      if lanes[n] != [] && lanes[n][0].key == key then Some(n) else LaneFor(lanes[..n], key)
  }

  function Placed(lanes: seq<Batch>, m: OutboxMessage): seq<Batch> {
    match LaneFor(lanes, m.key)
    case Some(i) => Appended(lanes, i, m)
    case None => lanes + [[m]]
  }

  /** Reference: lanes filled message by message, a new lane for each key's first message. */
  function LanesOf(batch: Batch): seq<Batch> {
    if batch == [] then [] else Placed(LanesOf(batch[..|batch| - 1]), batch[|batch| - 1])
  }

  lemma {:induction false} LanesPartitionTheBatch(batch: Batch)
    ensures Partitions(batch, LanesOf(batch))
  {
    if batch != [] {
      var init, m := batch[..|batch| - 1], batch[|batch| - 1];
      LanesPartitionTheBatch(init);
      assert batch == init + [m];
      match LaneFor(LanesOf(init), m.key) {
        case Some(i) => OldLaneKeepsPartition(init, LanesOf(init), i, m);
        case None => NewLaneKeepsPartition(init, LanesOf(init), m);
      }
    }
  }

  /** `lane_by_key` answers like `LaneFor`. */
  ghost predicate Indexes(index: map<Key, nat>, lanes: seq<Batch>) {
    forall k :: LaneFor(lanes, Some(k)) == if k in index then Some(index[k]) else None
  }

  lemma AppendingKeepsLaneFor(lanes: seq<Batch>, i: nat, m: OutboxMessage, key: Option<Key>)
    requires i < |lanes| && lanes[i] != []
    ensures LaneFor(Appended(lanes, i, m), key) == LaneFor(lanes, key)
  {
    if key.Some? {
      var n := |lanes| - 1;
      var lanes' := Appended(lanes, i, m);
      if i == n {
        assert lanes'[..n] == lanes[..n];
      } else {
        AppendingKeepsLaneFor(lanes[..n], i, m, key);
        assert lanes'[..n] == Appended(lanes[..n], i, m);
      }
    }
  }

  lemma NewLaneFor(lanes: seq<Batch>, m: OutboxMessage, key: Option<Key>)
    ensures LaneFor(lanes + [[m]], key) == if key.Some? && m.key == key then Some(|lanes|) else LaneFor(lanes, key)
  {
    assert (lanes + [[m]])[..|lanes|] == lanes;
  }

  method BuildLanes(batch: Batch) returns (lanes: seq<Batch>)
    ensures lanes == LanesOf(batch)
    ensures Partitions(batch, lanes)
  {
    lanes := [];
    var laneByKey: map<Key, nat> := map[];
    for n := 0 to |batch|
      invariant lanes == LanesOf(batch[..n])
      invariant Indexes(laneByKey, lanes)
    {
      var m := batch[n];
      assert batch[..n + 1][..n] == batch[..n];
      ghost var before := lanes;
      if m.key.Some? && m.key.value in laneByKey {
        var i := laneByKey[m.key.value];
        assert LaneFor(lanes, m.key) == Some(i);
        lanes := lanes[i := lanes[i] + [m]];
        forall k { AppendingKeepsLaneFor(before, i, m, Some(k)); }
      } else {
        assert LaneFor(lanes, m.key) == None;
        if m.key.Some? {
          laneByKey := laneByKey[m.key.value := |lanes|];
        }
        lanes := lanes + [[m]];
        forall k { NewLaneFor(before, m, Some(k)); }
      }
    }
    assert batch[..|batch|] == batch;
    LanesPartitionTheBatch(batch);
  }

  // ---------------------------------------------------------------- dispatching a lane

  class Dispatcher {
    const outbox: InMemoryOutbox
    const cfg: OutboxLifecycle.Config
    /** Messages the publisher accepted, in order. */
    var published: Batch

    constructor (outbox: InMemoryOutbox, cfg: OutboxLifecycle.Config)
      ensures this.outbox == outbox && this.cfg == cfg && published == []
    {
      this.outbox := outbox;
      this.cfg := cfg;
      published := [];
    }

    /** `dispatch_one`; `at` is where a retry would be scheduled. Without a recorded attempt nothing is published. */
    method DispatchOne(m: OutboxMessage, outcome: Outcome, at: int) returns (delivered: bool)
      requires outbox.Valid()
      modifies this, outbox
      ensures outbox.Valid()
      ensures delivered <==> m.id in old(outbox.store) && outcome.Delivered?
      ensures published == old(published) + (if delivered then [m] else [])
      ensures outbox.store == if m.id !in old(outbox.store) then old(outbox.store)
                else old(outbox.store)[m.id := Settled(cfg, Attempted(old(outbox.store)[m.id]), m.attempts + 1, outcome, at)]
      ensures m.id in old(outbox.store) ==>
                var was, now := old(outbox.store)[m.id], outbox.store[m.id];
                match outcome
                case Delivered => now == was.(attempts := was.attempts + 1, status := Published, lastError := None)
                case Refused(reason, kind) =>
                  if kind.Poison? || m.attempts + 1 >= cfg.maxAttempts
                  then now == was.(attempts := was.attempts + 1, status := Failed, lastError := Some(reason))
                  else now == was.(attempts := was.attempts + 1, nextAttemptAt := at)
    {
      var attempt := m.attempts + 1;
      var found := outbox.RecordAttempt(m.id);
      if !found {
        return false;
      }
      match outcome {
        case Delivered =>
          published := published + [m];
          found := outbox.MarkPublished(m.id);
          return true;
        case Refused(reason, kind) =>
          match DecideFor(cfg.maxAttempts, attempt, kind) {
            case ToDeadLetter => found := outbox.MarkFailed(m.id, reason);
            case RetryAfter => found := outbox.ScheduleRetry(m.id, at);
          }
          return false;
      }
    }

    /** A lane: sequential, with head-of-line blocking at the first message not delivered. */
    method RunLane(lane: Batch, outcomes: nat -> Outcome, at: nat -> int) returns (sent: nat)
      requires outbox.Valid()
      modifies this, outbox
      ensures outbox.Valid() && outbox.store.Keys == old(outbox.store.Keys)
      ensures sent <= |lane| && published == old(published) + lane[..sent]
      ensures forall j :: 0 <= j < sent ==> lane[j].id in outbox.store && outcomes(j).Delivered?
      ensures sent < |lane| ==> lane[sent].id !in outbox.store || outcomes(sent).Refused?
    {
      sent := 0;
      while sent < |lane|
        invariant sent <= |lane| && outbox.Valid()
        invariant outbox.store.Keys == old(outbox.store.Keys)
        invariant published == old(published) + lane[..sent]
        invariant forall j :: 0 <= j < sent ==> lane[j].id in outbox.store && outcomes(j).Delivered?
      {
        var delivered := DispatchOne(lane[sent], outcomes(sent), at(sent));
        if !delivered {
          break;
        }
        assert lane[..sent + 1] == lane[..sent] + [lane[sent]];
        sent := sent + 1;
      }
    }
  }
}
