/**
 * What a save over the snapshotting repository achieves from any reachable
 * state: a lookup, the events raised on it and the append, with nobody in
 * between, extend the stream by exactly those events; an append that comes too
 * late changes no stream; a due snapshot is of the whole stream.
 */
module SnapshotEffects {
  import opened Common
  import opened EventSourcing
  import opened SnapshotProtocol

  lemma OneMore(b: Behaviour, every: nat, acts: seq<Action>, a: Action)
    requires every >= 1
    ensures Run(b, every, acts + [a]) == Next(b, every, Run(b, every, acts), a)
  {
    assert (acts + [a])[..|acts|] == acts;
  }

  /** The stream has grown by `events`, numbered on. */
  ghost predicate Extended(stream: Stream, events: seq<Event>, stream': Stream) {
    && |stream'| == |stream| + |events|
    && (forall i :: 0 <= i < |stream| ==> stream'[i] == stream[i])
    && (forall i :: 0 <= i < |events| ==> stream'[|stream| + i] == StoredEvent(|stream| + i + 1, events[i]))
  }

  lemma ExtendedFolds(b: Behaviour, stream: Stream, events: seq<Event>, stream': Stream)
    requires Extended(stream, events, stream')
    ensures Fold(b, stream') == FoldOn(b, Fold(b, stream), events)
  {
    assert stream' == stream + Stamp(|stream|, events);
    FoldAppends(b, stream, |stream|, events);
  }

  ghost predicate OtherStreamsSame(streams: Streams, streams': Streams, id: Id) {
    forall jd :: jd != id ==> StreamOf(streams', jd) == StreamOf(streams, jd)
  }

  /** Only the entry of process `p` may differ. */
  ghost predicate OnlyProc(w: World, w': World, p: nat) {
    w'.procs - {p} == w.procs - {p}
  }

  // ---------------------------------------------------------------- lookup

  /** A lookup that nobody interrupts holds the aggregate of the whole stream, or nothing when there is none. */
  lemma LookupAlone(b: Behaviour, every: nat, w: World, p: nat, id: Id, ok: bool)
    requires every >= 1 && Inv(b, w) && p !in w.procs
    ensures var w', stream := Next(b, every, Next(b, every, w, LoadSnapshot(p, id, ok)), LoadTail(p)), StreamOf(w.streams, id);
            && w'.streams == w.streams && w'.snaps == w.snaps
            && w'.procs == if stream == [] then w.procs
                           else w.procs[p := Holding(id, Aggregate(Fold(b, stream), |stream|, []))]
  {
    var looking := Next(b, every, w, LoadSnapshot(p, id, ok));
    var stream := StreamOf(w.streams, id);
    StepKeepsInv(b, every, w, LoadSnapshot(p, id, ok));
    assert PcOk(b, looking.streams, looking.procs[p]);
    SnapshotReplayAgrees(b, stream, looking.procs[p].start);
    assert looking.procs - {p} == w.procs;
    var held := Holding(id, Aggregate(Fold(b, stream), |stream|, []));
    assert looking.procs[p := held] == w.procs[p := held];
  }

  lemma LookupTakesEffect(b: Behaviour, every: nat, acts: seq<Action>, p: nat, id: Id, ok: bool)
    requires every >= 1 && p !in Run(b, every, acts).procs
    ensures var w := Run(b, every, acts);
            var w', stream := Run(b, every, acts + [LoadSnapshot(p, id, ok)] + [LoadTail(p)]), StreamOf(w.streams, id);
            && w'.streams == w.streams && w'.snaps == w.snaps
            && w'.procs == if stream == [] then w.procs
                           else w.procs[p := Holding(id, Aggregate(Fold(b, stream), |stream|, []))]
  {
    RunKeepsInv(b, every, acts);
    OneMore(b, every, acts, LoadSnapshot(p, id, ok));
    OneMore(b, every, acts + [LoadSnapshot(p, id, ok)], LoadTail(p));
    LookupAlone(b, every, Run(b, every, acts), p, id, ok);
  }

  // ---------------------------------------------------------------- raising and appending

  lemma {:induction false} RaiseAll(b: Behaviour, every: nat, acts: seq<Action>, p: nat, events: seq<Event>) returns (more: seq<Action>)
    requires every >= 1 && p in Run(b, every, acts).procs && Run(b, every, acts).procs[p].Holding?
    ensures var w, w' := Run(b, every, acts), Run(b, every, more);
            var id, agg := w.procs[p].id, w.procs[p].agg;
            && w'.streams == w.streams && w'.snaps == w.snaps && OnlyProc(w, w', p)
            && p in w'.procs
            && w'.procs[p] == Holding(id, Aggregate(FoldOn(b, agg.state, events), agg.version, agg.pending + events))
  {
    var w := Run(b, every, acts);
    if events == [] {
      more := acts;
      assert w.procs[p].agg.pending + events == w.procs[p].agg.pending;
    } else {
      var n := |events| - 1;
      more := RaiseAll(b, every, acts, p, events[..n]);
      OneMore(b, every, more, Raise(p, events[n]));
      var before := Run(b, every, more);
      var after := Next(b, every, before, Raise(p, events[n]));
      assert after.procs - {p} == before.procs - {p};
      assert w.procs[p].agg.pending + events == w.procs[p].agg.pending + events[..n] + [events[n]];
      more := more + [Raise(p, events[n])];
    }
  }

  /**
   * What an append does: at the stream's version it extends the stream by the
   * raised events and leaves a snapshot due exactly past a boundary; otherwise
   * it changes no stream. Either way the raised events are drained.
   */
  ghost predicate Appended(every: nat, w: World, p: nat, w': World)
    requires every >= 1 && p in w.procs && w.procs[p].Holding?
  {
    var id, agg := w.procs[p].id, w.procs[p].agg;
    var stream, stream' := StreamOf(w.streams, id), StreamOf(w'.streams, id);
    && w'.snaps == w.snaps && OnlyProc(w, w', p) && OtherStreamsSame(w.streams, w'.streams, id) && p in w'.procs
    && (if agg.version == |stream| then
          && Extended(stream, agg.pending, stream')
          && (w'.procs[p].Holding? || w'.procs[p].Snapshotting?) && w'.procs[p].id == id
          && w'.procs[p].agg == Aggregate(agg.state, |stream'|, [])
          && (w'.procs[p].Snapshotting? <==> |stream| / every < |stream'| / every)
        else
          stream' == stream && w'.procs[p] == Holding(id, agg.(pending := [])))
  }

  lemma AppendAlone(b: Behaviour, every: nat, w: World, p: nat)
    requires every >= 1 && p in w.procs && w.procs[p].Holding?
    ensures Appended(every, w, p, Next(b, every, w, Append(p)))
  {
  }

  lemma AppendTakesEffect(b: Behaviour, every: nat, acts: seq<Action>, p: nat)
    requires every >= 1 && p in Run(b, every, acts).procs && Run(b, every, acts).procs[p].Holding?
    ensures Appended(every, Run(b, every, acts), p, Run(b, every, acts + [Append(p)]))
  {
    OneMore(b, every, acts, Append(p));
    AppendAlone(b, every, Run(b, every, acts), p);
  }

  /** Looking up an existing aggregate, raising events on it and saving it always succeeds when nobody interferes. */
  lemma SaveTakesEffect(b: Behaviour, every: nat, acts: seq<Action>, p: nat, id: Id, ok: bool, events: seq<Event>) returns (more: seq<Action>)
    requires every >= 1 && p !in Run(b, every, acts).procs && StreamOf(Run(b, every, acts).streams, id) != []
    ensures var w, w' := Run(b, every, acts), Run(b, every, more);
            && Extended(StreamOf(w.streams, id), events, StreamOf(w'.streams, id))
            && OtherStreamsSame(w.streams, w'.streams, id) && w'.snaps == w.snaps
            && p in w'.procs && w'.procs[p].id == id && !w'.procs[p].Looking?
            && w'.procs[p].agg == Aggregate(Fold(b, StreamOf(w'.streams, id)), |StreamOf(w'.streams, id)|, [])
  {
    var w := Run(b, every, acts);
    LookupTakesEffect(b, every, acts, p, id, ok);
    more := acts + [LoadSnapshot(p, id, ok)] + [LoadTail(p)];
    more := RaiseAll(b, every, more, p, events);
    AppendTakesEffect(b, every, more, p);
    assert [] + events == events;
    more := more + [Append(p)];
    ExtendedFolds(b, StreamOf(w.streams, id), events, StreamOf(Run(b, every, more).streams, id));
  }

  /** A new aggregate is saved the same way, as the first events of its stream. */
  lemma CreateTakesEffect(b: Behaviour, every: nat, acts: seq<Action>, p: nat, id: Id, events: seq<Event>) returns (more: seq<Action>)
    requires every >= 1 && p !in Run(b, every, acts).procs && StreamOf(Run(b, every, acts).streams, id) == []
    ensures var w, w' := Run(b, every, acts), Run(b, every, more);
            && Extended([], events, StreamOf(w'.streams, id))
            && OtherStreamsSame(w.streams, w'.streams, id) && w'.snaps == w.snaps
  {
    OneMore(b, every, acts, Create(p, id));
    more := acts + [Create(p, id)];
    more := RaiseAll(b, every, more, p, events);
    AppendTakesEffect(b, every, more, p);
    assert [] + events == events;
    more := more + [Append(p)];
  }

  /** A due snapshot that is written is stored as state and version of its aggregate, and nothing else changes. */
  lemma SnapshotTakesEffect(b: Behaviour, every: nat, acts: seq<Action>, p: nat)
    requires every >= 1 && p in Run(b, every, acts).procs && Run(b, every, acts).procs[p].Snapshotting?
    ensures var w, w' := Run(b, every, acts), Run(b, every, acts + [WriteSnapshot(p, true)]);
            var id, agg := w.procs[p].id, w.procs[p].agg;
            && w'.snaps == w.snaps[id := Snapshot(agg.state, agg.version)]
            && w'.streams == w.streams && w'.procs == w.procs[p := Holding(id, agg)]
  {
    OneMore(b, every, acts, WriteSnapshot(p, true));
  }
}
