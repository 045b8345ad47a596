/**
 * Event-sourced repositories: an append-only store with a version check, full
 * replay, and a snapshotting repository that must agree with it. `Behaviour` is
 * the user's aggregate: its default state and its `apply`.
 */
module EventSourcing {
  import opened Common

  type Id(==, !new)
  type Event(!new)
  type State(!new)

  datatype Behaviour = Behaviour(initial: State, apply: (State, Event) -> State)

  datatype StoredEvent = StoredEvent(sequence: nat, event: Event)

  type Stream = seq<StoredEvent>
  type Streams = map<Id, Stream>

  /** `pending` are raised events not yet saved; raising one also applies it. */
  datatype Aggregate = Aggregate(state: State, version: nat, pending: seq<Event>)

  datatype Snapshot = Snapshot(state: State, version: nat)

  function StreamOf(streams: Streams, id: Id): Stream {
    if id in streams then streams[id] else []
  }

  ghost predicate Numbered(stream: Stream) {
    forall i :: 0 <= i < |stream| ==> stream[i].sequence == i + 1
  }

  ghost predicate AllNumbered(streams: Streams) {
    forall id :: id in streams ==> Numbered(streams[id])
  }

  function FoldStored(b: Behaviour, state: State, tail: Stream): State {
    if tail == [] then state else b.apply(FoldStored(b, state, tail[..|tail| - 1]), tail[|tail| - 1].event)
  }

  /** Reference: the state a history of stored events describes. */
  function Fold(b: Behaviour, stream: Stream): State {
    FoldStored(b, b.initial, stream)
  }

  function FoldOn(b: Behaviour, state: State, events: seq<Event>): State {
    if events == [] then state else b.apply(FoldOn(b, state, events[..|events| - 1]), events[|events| - 1])
  }

  /** What replaying the whole stream answers: nothing for an empty stream, else state and version. */
  function FullReplay(b: Behaviour, stream: Stream): Option<Aggregate> {
    if stream == [] then None else Some(Aggregate(Fold(b, stream), |stream|, []))
  }

  function Stamp(from: nat, events: seq<Event>): Stream {
    seq(|events|, i requires 0 <= i < |events| => StoredEvent(from + i + 1, events[i]))
  }

  function LoadAfter(stream: Stream, after: nat): Stream {
    if stream == [] then []
    else
      var n := |stream| - 1;
      LoadAfter(stream[..n], after) + (if stream[n].sequence > after then [stream[n]] else [])
  }

  lemma {:induction false} LoadAfterIsTail(stream: Stream, after: nat)
    requires Numbered(stream)
    ensures LoadAfter(stream, after) == stream[Min(after, |stream|)..]
  {
    if stream != [] {
      var n := |stream| - 1;
      LoadAfterIsTail(stream[..n], after);
      if after <= n {
        assert stream[after..] == stream[..n][after..] + [stream[n]];
      } else {
        assert stream[..n][n..] == [];
      }
    }
  }

  lemma {:induction false} FoldAppends(b: Behaviour, stream: Stream, from: nat, events: seq<Event>)
    ensures Fold(b, stream + Stamp(from, events)) == FoldOn(b, Fold(b, stream), events)
  {
    if events == [] {
      assert stream + Stamp(from, events) == stream;
    } else {
      var n := |events| - 1;
      FoldAppends(b, stream, from, events[..n]);
      assert (stream + Stamp(from, events))[..|stream| + n] == stream + Stamp(from, events[..n]);
    }
  }

  /** A snapshot is the fold of a non-empty prefix of its stream. */
  ghost predicate SnapshotOk(b: Behaviour, stream: Stream, snap: Snapshot) {
    1 <= snap.version <= |stream| && snap.state == Fold(b, stream[..snap.version])
  }

  /**
   * A held aggregate either reflects the whole stream plus what it raised, or
   * is behind the stream, in which case its save can only conflict.
   */
  ghost predicate AggregateOk(b: Behaviour, stream: Stream, agg: Aggregate) {
    && agg.version <= |stream|
    && (agg.version == |stream| ==> agg.state == FoldOn(b, Fold(b, stream), agg.pending))
  }

  /** What the snapshotting `find_by_id` answers from its starting point and the tail it loads. */
  function ReplayFrom(b: Behaviour, start: Snapshot, tail: Stream): Option<Aggregate> {
    if start.version == 0 && tail == [] then None
    else
      Some(Aggregate(FoldStored(b, start.state, tail),
                     if tail == [] then start.version else tail[|tail| - 1].sequence, []))
  }

  lemma {:induction false} FoldSplits(b: Behaviour, stream: Stream, k: nat)
    requires k <= |stream|
    ensures FoldStored(b, Fold(b, stream[..k]), stream[k..]) == Fold(b, stream)
  {
    if k == |stream| {
      assert stream[..k] == stream;
    } else {
      var n := |stream| - 1;
      FoldSplits(b, stream[..n], k);
      assert stream[..n][..k] == stream[..k] && stream[..n][k..] == stream[k..][..n - k];
    }
  }

  ghost predicate StartOk(b: Behaviour, stream: Stream, start: Snapshot) {
    (start.version == 0 && start.state == b.initial) || SnapshotOk(b, stream, start)
  }

  /** Replaying a tail on top of a good starting point answers exactly as replaying everything. */
  lemma SnapshotReplayAgrees(b: Behaviour, stream: Stream, start: Snapshot)
    requires Numbered(stream) && StartOk(b, stream, start)
    ensures ReplayFrom(b, start, LoadAfter(stream, start.version)) == FullReplay(b, stream)
  {
    LoadAfterIsTail(stream, start.version);
    FoldSplits(b, stream, start.version);
    assert start.version == 0 ==> stream[..0] == [];
  }

  /** Appending what an up-to-date aggregate raised makes the stream describe that aggregate. */
  lemma SavedIsReplayed(b: Behaviour, stream: Stream, agg: Aggregate)
    requires AggregateOk(b, stream, agg) && agg.version == |stream|
    ensures var stream', version := stream + Stamp(agg.version, agg.pending), agg.version + |agg.pending|;
            && |stream'| == version && Fold(b, stream') == agg.state
            && (version >= 1 ==> SnapshotOk(b, stream', Snapshot(agg.state, version)))
  {
    var stream' := stream + Stamp(agg.version, agg.pending);
    FoldAppends(b, stream, agg.version, agg.pending);
    assert stream'[..|stream'|] == stream';
  }

  // ---------------------------------------------------------------- stores and repositories

  class InMemoryEventStore {
    var streams: Streams

    ghost predicate Valid() reads this {
      AllNumbered(streams)
    }

    constructor ()
      ensures Valid() && streams == map[]
    {
      streams := map[];
    }

    method Load(id: Id) returns (stream: Stream)
      ensures stream == StreamOf(streams, id)
    {
      if id in streams {
        stream := streams[id];
      } else {
        stream := [];
      }
    }

    /** Accepted exactly when the expected version is the stream's length; then the events follow, numbered on. */
    method Append(id: Id, expected: nat, events: seq<Event>) returns (ok: bool)
      requires Valid()
      modifies this
      ensures Valid()
      ensures ok <==> expected == |StreamOf(old(streams), id)|
      ensures streams == if ok then old(streams)[id := StreamOf(old(streams), id) + Stamp(expected, events)] else old(streams)
    {
      var stream := if id in streams then streams[id] else [];
      if |stream| != expected {
        return false;
      }
      ghost var before := stream;
      var sequence := |stream|;
      for i := 0 to |events|
        invariant sequence == expected + i
        invariant stream == before + Stamp(expected, events[..i])
      {
        sequence := sequence + 1;
        stream := stream + [StoredEvent(sequence, events[i])];
      }
      assert events[..|events|] == events;
      streams := streams[id := stream];
      return true;
    }
  }

  /** `EventSourcedRepository::find_by_id`. */
  method FindByReplay(b: Behaviour, store: InMemoryEventStore, id: Id) returns (found: Option<Aggregate>)
    requires store.Valid()
    ensures found == FullReplay(b, StreamOf(store.streams, id))
  {
    var events := store.Load(id);
    if events == [] {
      return None;
    }
    var state, version := b.initial, 0;
    for i := 0 to |events|
      invariant state == Fold(b, events[..i]) && version == i
    {
      assert events[..i + 1][..i] == events[..i];
      state := b.apply(state, events[i].event);
      version := events[i].sequence;
    }
    assert events[..|events|] == events;
    return Some(Aggregate(state, version, []));
  }

  class SnapshottingRepository {
    const b: Behaviour
    const snapshotEvery: nat
    const store: InMemoryEventStore
    var snapshots: map<Id, Snapshot>

    ghost predicate Valid() reads this, store {
      && store.Valid() && snapshotEvery >= 1
      && forall id :: id in snapshots ==> SnapshotOk(b, StreamOf(store.streams, id), snapshots[id])
    }

    /** `snapshot_every` is clamped to at least one. */
    constructor (b: Behaviour, store: InMemoryEventStore, snapshotEvery: nat)
      requires store.Valid()
      ensures Valid() && this.b == b && this.store == store && this.snapshotEvery == Max(1, snapshotEvery)
      ensures snapshots == map[]
    {
      this.b := b;
      this.store := store;
      this.snapshotEvery := Max(1, snapshotEvery);
      snapshots := map[];
    }

    /** Whether or not the snapshot loads, the answer is that of replaying the whole stream. */
    method FindById(id: Id, loadOk: bool) returns (found: Option<Aggregate>)
      requires Valid()
      ensures found == FullReplay(b, StreamOf(store.streams, id))
    {
      var start := if loadOk && id in snapshots then snapshots[id] else Snapshot(b.initial, 0);
      var stream := store.Load(id);
      var events := LoadAfter(stream, start.version);
      SnapshotReplayAgrees(b, stream, start);
      if start.version == 0 && events == [] {
        return None;
      }
      var state, version := start.state, start.version;
      for i := 0 to |events|
        invariant state == FoldStored(b, start.state, events[..i])
        invariant version == if i == 0 then start.version else events[i - 1].sequence
      {
        assert events[..i + 1][..i] == events[..i];
        state := b.apply(state, events[i].event);
        version := events[i].sequence;
      }
      assert events[..|events|] == events;
      return Some(Aggregate(state, version, []));
    }

    /** Appends and drains; past a boundary the snapshot is refreshed, best effort. */
    method Save(id: Id, agg: Aggregate, snapshotOk: bool) returns (ok: bool, after: Aggregate)
      requires Valid() && AggregateOk(b, StreamOf(store.streams, id), agg)
      modifies this, store
      ensures Valid()
      ensures ok <==> agg.version == |StreamOf(old(store.streams), id)|
      ensures ok ==> Some(after) == FullReplay(b, StreamOf(store.streams, id)) || (after.version == 0 && agg.pending == [])
      ensures !ok ==> store.streams == old(store.streams) && snapshots == old(snapshots) && after == agg.(pending := [])
      ensures AggregateOk(b, StreamOf(store.streams, id), after)
      ensures ok ==> store.streams == old(store.streams)[id := StreamOf(old(store.streams), id) + Stamp(agg.version, agg.pending)]
      ensures ok && snapshotOk && agg.version / snapshotEvery < after.version / snapshotEvery ==>
                snapshots == old(snapshots)[id := Snapshot(after.state, after.version)]
      ensures !(ok && snapshotOk && agg.version / snapshotEvery < after.version / snapshotEvery) ==> snapshots == old(snapshots)
    {
      ghost var streams := store.streams;
      var expected, events := agg.version, agg.pending;
      after := agg.(pending := []);
      ok := store.Append(id, expected, events);
      if ok {
        var newVersion := expected + |events|;
        after := after.(version := newVersion);
        SavedIsReplayed(b, StreamOf(streams, id), agg);
        SnapshotsSurviveAppend(b, streams, id, Stamp(expected, events), snapshots);
        if newVersion / snapshotEvery > expected / snapshotEvery && snapshotOk {
          snapshots := snapshots[id := Snapshot(after.state, newVersion)];
        }
      }
    }
  }

  lemma SnapshotsSurviveAppend(b: Behaviour, streams: Streams, id: Id, more: Stream, snaps: map<Id, Snapshot>)
    requires forall i :: i in snaps ==> SnapshotOk(b, StreamOf(streams, i), snaps[i])
    ensures var streams' := streams[id := StreamOf(streams, id) + more];
            forall i :: i in snaps ==> SnapshotOk(b, StreamOf(streams', i), snaps[i])
  {
    var streams' := streams[id := StreamOf(streams, id) + more];
    forall i | i in snaps ensures SnapshotOk(b, StreamOf(streams', i), snaps[i]) {
      assert SnapshotOk(b, StreamOf(streams, i), snaps[i]);
      assert StreamOf(streams', i)[..snaps[i].version] == StreamOf(streams, i)[..snaps[i].version];
    }
  }
}
