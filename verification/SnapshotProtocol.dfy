/**
 * Concurrent writers over the snapshotting repository. A process looks an
 * aggregate up in two steps (snapshot, then tail), raises events on it, appends
 * under the version check and, later and fallibly, writes the snapshot; any of
 * it may be abandoned at any point. Streams are never deleted.
 */
module SnapshotProtocol {
  import opened Common
  import opened EventSourcing

  /**
   * A lookup remembers how long the stream was when it loaded the snapshot, and
   * whether one was due then: appended past a boundary and not yet written.
   */
  datatype Pc =
    | Looking(id: Id, start: Snapshot, seen: nat, due: bool)
    | Holding(id: Id, agg: Aggregate)
    | Snapshotting(id: Id, agg: Aggregate)

  datatype World = World(streams: Streams, snaps: map<Id, Snapshot>, procs: map<nat, Pc>)

  datatype Action =
    | LoadSnapshot(p: nat, id: Id, ok: bool)
    | LoadTail(p: nat)
    | Create(p: nat, id: Id)
    | Raise(p: nat, event: Event)
    | Append(p: nat)
    | WriteSnapshot(p: nat, ok: bool)
    | Drop(p: nat)

  const EMPTY := World(map[], map[], map[])

  function Goto(w: World, p: nat, pc: Pc): World {
    w.(procs := w.procs[p := pc])
  }

  predicate SnapshotDue(w: World, id: Id) {
    exists p :: p in w.procs && w.procs[p].Snapshotting? && w.procs[p].id == id
  }

  /** What `find_by_id` returns if it loads the tail now. */
  function Answer(b: Behaviour, w: World, pc: Pc): Option<Aggregate>
    requires pc.Looking?
  {
    ReplayFrom(b, pc.start, LoadAfter(StreamOf(w.streams, pc.id), pc.start.version))
  }

  function AfterAppend(every: nat, w: World, p: nat, pc: Pc): World
    requires pc.Holding? && every >= 1
  {
    var stream, agg := StreamOf(w.streams, pc.id), pc.agg;
    if |stream| != agg.version then
      Goto(w, p, Holding(pc.id, agg.(pending := [])))
    else
      var version := agg.version + |agg.pending|;
      var saved := Aggregate(agg.state, version, []);
      Goto(w.(streams := w.streams[pc.id := stream + Stamp(agg.version, agg.pending)]), p,
           if version / every > agg.version / every then Snapshotting(pc.id, saved) else Holding(pc.id, saved))
  }

  function Next(b: Behaviour, every: nat, w: World, a: Action): World
    requires every >= 1
  {
    match a
    case LoadSnapshot(p, id, ok) =>
      if p in w.procs then w
      else
        var start := if ok && id in w.snaps then w.snaps[id] else Snapshot(b.initial, 0);
        Goto(w, p, Looking(id, start, |StreamOf(w.streams, id)|, SnapshotDue(w, id)))
    case LoadTail(p) =>
      if p in w.procs && w.procs[p].Looking? then
        match Answer(b, w, w.procs[p])
        case Some(agg) => Goto(w, p, Holding(w.procs[p].id, agg))
        case None => w.(procs := w.procs - {p})
      else w
    case Create(p, id) =>
      if p in w.procs then w else Goto(w, p, Holding(id, Aggregate(b.initial, 0, [])))
    case Raise(p, e) =>
      if p in w.procs && w.procs[p].Holding? then
        var agg := w.procs[p].agg;
        Goto(w, p, Holding(w.procs[p].id, agg.(state := b.apply(agg.state, e), pending := agg.pending + [e])))
      else w
    case Append(p) =>
      if p in w.procs && w.procs[p].Holding? then AfterAppend(every, w, p, w.procs[p]) else w
    case WriteSnapshot(p, ok) =>
      if p in w.procs && w.procs[p].Snapshotting? then
        var id, agg := w.procs[p].id, w.procs[p].agg;
        Goto(if ok then w.(snaps := w.snaps[id := Snapshot(agg.state, agg.version)]) else w, p, Holding(id, agg))
      else w
    case Drop(p) => w.(procs := w.procs - {p})
  }

  function Run(b: Behaviour, every: nat, acts: seq<Action>): World
    requires every >= 1
  {
    if acts == [] then EMPTY else Next(b, every, Run(b, every, acts[..|acts| - 1]), acts[|acts| - 1])
  }

  ghost predicate PcOk(b: Behaviour, streams: Streams, pc: Pc) {
    var stream := StreamOf(streams, pc.id);
    match pc
    case Looking(_, start, _, _) => StartOk(b, stream, start)
    case Holding(_, agg) => AggregateOk(b, stream, agg)
    case Snapshotting(_, agg) =>
      AggregateOk(b, stream, agg) && SnapshotOk(b, stream, Snapshot(agg.state, agg.version)) && agg.pending == []
  }

  ghost predicate Inv(b: Behaviour, w: World) {
    && AllNumbered(w.streams)
    && (forall id :: id in w.snaps ==> SnapshotOk(b, StreamOf(w.streams, id), w.snaps[id]))
    && (forall p :: p in w.procs ==> PcOk(b, w.streams, w.procs[p]))
  }

  /** Appending to a stream keeps every prefix: good starting points stay good, held aggregates fall behind. */
  lemma PcOkSurvivesAppend(b: Behaviour, streams: Streams, id: Id, more: Stream, pc: Pc)
    requires PcOk(b, streams, pc)
    requires more != [] || pc.id != id || !pc.Holding?
    ensures PcOk(b, streams[id := StreamOf(streams, id) + more], pc)
  {
    var stream := StreamOf(streams, pc.id);
    var stream' := StreamOf(streams[id := StreamOf(streams, id) + more], pc.id);
    if pc.Looking? && pc.start.version > 0 {
      assert stream'[..pc.start.version] == stream[..pc.start.version];
    } else if pc.Snapshotting? {
      assert stream'[..pc.agg.version] == stream[..pc.agg.version];
      assert more == [] ==> stream' == stream;
    }
  }

  lemma UnchangedStreamKeepsPc(b: Behaviour, streams: Streams, streams': Streams, pc: Pc)
    requires PcOk(b, streams, pc) && StreamOf(streams', pc.id) == StreamOf(streams, pc.id)
    ensures PcOk(b, streams', pc)
  {
  }

  lemma AppenderIsOk(b: Behaviour, every: nat, w: World, p: nat)
    requires every >= 1 && Inv(b, w) && p in w.procs && w.procs[p].Holding?
    ensures var w' := AfterAppend(every, w, p, w.procs[p]); PcOk(b, w'.streams, w'.procs[p])
  {
    var pc := w.procs[p];
    var stream := StreamOf(w.streams, pc.id);
    if |stream| == pc.agg.version {
      FoldAppends(b, stream, pc.agg.version, pc.agg.pending);
      var stream' := stream + Stamp(pc.agg.version, pc.agg.pending);
      assert stream'[..|stream'|] == stream';
    }
  }

  /** Everyone else's position survives an append. */
  lemma OthersSurviveAppend(b: Behaviour, streams: Streams, id: Id, more: Stream, pc: Pc)
    requires PcOk(b, streams, pc)
    ensures PcOk(b, streams[id := StreamOf(streams, id) + more], pc)
  {
    if more == [] {
      assert StreamOf(streams, id) + more == StreamOf(streams, id);
      UnchangedStreamKeepsPc(b, streams, streams[id := StreamOf(streams, id) + more], pc);
    } else {
      PcOkSurvivesAppend(b, streams, id, more, pc);
    }
  }

  lemma AppendKeepsPcs(b: Behaviour, every: nat, w: World, p: nat)
    requires every >= 1 && Inv(b, w) && p in w.procs && w.procs[p].Holding?
    ensures var w' := AfterAppend(every, w, p, w.procs[p]); forall q :: q in w'.procs ==> PcOk(b, w'.streams, w'.procs[q])
  {
    var pc := w.procs[p];
    var w' := AfterAppend(every, w, p, pc);
    AppenderIsOk(b, every, w, p);
    forall q | q in w'.procs && q != p ensures PcOk(b, w'.streams, w'.procs[q]) {
      if |StreamOf(w.streams, pc.id)| == pc.agg.version {
        OthersSurviveAppend(b, w.streams, pc.id, Stamp(pc.agg.version, pc.agg.pending), w.procs[q]);
      }
    }
  }

  lemma AppendKeepsInv(b: Behaviour, every: nat, w: World, p: nat)
    requires every >= 1 && Inv(b, w) && p in w.procs && w.procs[p].Holding?
    ensures Inv(b, AfterAppend(every, w, p, w.procs[p]))
  {
    var agg := w.procs[p].agg;
    AppendKeepsPcs(b, every, w, p);
    SnapshotsSurviveAppend(b, w.streams, w.procs[p].id, Stamp(agg.version, agg.pending), w.snaps);
  }

  lemma RaiseKeepsAggregate(b: Behaviour, stream: Stream, agg: Aggregate, e: Event)
    requires AggregateOk(b, stream, agg)
    ensures AggregateOk(b, stream, agg.(state := b.apply(agg.state, e), pending := agg.pending + [e]))
  {
    assert (agg.pending + [e])[..|agg.pending|] == agg.pending;
  }

  lemma StepKeepsInv(b: Behaviour, every: nat, w: World, a: Action)
    requires every >= 1 && Inv(b, w)
    ensures Inv(b, Next(b, every, w, a))
  {
    match a {
      case LoadTail(p) =>
        if p in w.procs && w.procs[p].Looking? {
          assert PcOk(b, w.streams, w.procs[p]);
          SnapshotReplayAgrees(b, StreamOf(w.streams, w.procs[p].id), w.procs[p].start);
        }
      case Raise(p, e) =>
        if p in w.procs && w.procs[p].Holding? {
          RaiseKeepsAggregate(b, StreamOf(w.streams, w.procs[p].id), w.procs[p].agg, e);
        }
      case Append(p) =>
        if p in w.procs && w.procs[p].Holding? {
          AppendKeepsInv(b, every, w, p);
        }
      case _ =>
    }
  }

  lemma {:induction false} RunKeepsInv(b: Behaviour, every: nat, acts: seq<Action>)
    requires every >= 1
    ensures Inv(b, Run(b, every, acts))
  {
    if acts != [] {
      RunKeepsInv(b, every, acts[..|acts| - 1]);
      StepKeepsInv(b, every, Run(b, every, acts[..|acts| - 1]), acts[|acts| - 1]);
    }
  }

  // ---------------------------------------------------------------- theorems over every run

  /** Every stored snapshot is the fold of a prefix of its stream, however late it was written. */
  lemma SnapshotsAreFoldsOfPrefixes(b: Behaviour, every: nat, acts: seq<Action>, id: Id)
    requires every >= 1 && id in Run(b, every, acts).snaps
    ensures var w := Run(b, every, acts); SnapshotOk(b, StreamOf(w.streams, id), w.snaps[id])
  {
    RunKeepsInv(b, every, acts);
  }

  /**
   * A lookup under way - whichever snapshot it loaded, or failed to load -
   * answers exactly as replaying the whole stream at the moment it loads the
   * tail: same presence, state and version.
   */
  lemma LookupRefinesFullReplay(b: Behaviour, every: nat, acts: seq<Action>, p: nat)
    requires every >= 1
    requires var w := Run(b, every, acts); p in w.procs && w.procs[p].Looking?
    ensures var w := Run(b, every, acts);
            Answer(b, w, w.procs[p]) == FullReplay(b, StreamOf(w.streams, w.procs[p].id))
  {
    RunKeepsInv(b, every, acts);
    var w := Run(b, every, acts);
    assert PcOk(b, w.streams, w.procs[p]);
    SnapshotReplayAgrees(b, StreamOf(w.streams, w.procs[p].id), w.procs[p].start);
  }

  // ---------------------------------------------------------------- bounded replay for a single writer

  predicate Mutates(a: Action) {
    a.Create? || a.Raise? || a.Append? || a.WriteSnapshot?
  }

  /** Only `p` writes, anyone looks up; snapshot loads and writes succeed, and a snapshot once due is written. */
  predicate OneWriterStep(p: nat, w: World, a: Action) {
    && (Mutates(a) ==> a.p == p)
    && (a.LoadSnapshot? || a.WriteSnapshot? ==> a.ok)
    && (a.Drop? && a.p == p ==> p !in w.procs || !w.procs[p].Snapshotting?)
  }

  ghost predicate OneWriterRun(b: Behaviour, every: nat, p: nat, acts: seq<Action>)
    requires every >= 1
  {
    forall n :: 0 <= n < |acts| ==> OneWriterStep(p, Run(b, every, acts[..n]), acts[n])
  }

  function SnapshotVersion(w: World, id: Id): nat {
    if id in w.snaps then w.snaps[id].version else 0
  }

  /** A lookup that began when no snapshot was due started inside the same interval as the stream's end then. */
  predicate StartedClose(every: nat, streams: Streams, pc: Pc)
    requires every >= 1
  {
    pc.Looking? ==>
      && pc.start.version <= pc.seen <= |StreamOf(streams, pc.id)|
      && (!pc.due ==> pc.start.version / every == pc.seen / every)
  }

  ghost predicate SnapshotsAreClose(every: nat, w: World)
    requires every >= 1
  {
    forall id :: !SnapshotDue(w, id) ==> SnapshotVersion(w, id) / every == |StreamOf(w.streams, id)| / every
  }

  /** Only the writer is ever about to write a snapshot, and it is of the whole stream. */
  ghost predicate WriterIsCurrent(p: nat, w: World) {
    forall q :: q in w.procs && w.procs[q].Snapshotting? ==>
      q == p && w.procs[q].agg.version == |StreamOf(w.streams, w.procs[q].id)|
  }

  ghost predicate LookupsAreClose(every: nat, w: World)
    requires every >= 1
  {
    forall q :: q in w.procs ==> StartedClose(every, w.streams, w.procs[q])
  }

  ghost predicate Shape(every: nat, p: nat, w: World)
    requires every >= 1
  {
    SnapshotsAreClose(every, w) && WriterIsCurrent(p, w) && LookupsAreClose(every, w)
  }

  lemma QuotientGrows(a: nat, c: nat, every: nat)
    requires every >= 1 && a <= c
    ensures a / every <= c / every
  {
    var q, r := c / every, a / every;
    assert a == every * r + a % every && c == every * q + c % every;
    assert q < r ==> every * (q + 1) <= every * r;
  }

  /** Streams only get longer, so a lookup that started close still did. */
  lemma AppendKeepsLookups(every: nat, w: World, p: nat)
    requires every >= 1 && LookupsAreClose(every, w) && p in w.procs && w.procs[p].Holding?
    ensures LookupsAreClose(every, AfterAppend(every, w, p, w.procs[p]))
  {
    var w' := AfterAppend(every, w, p, w.procs[p]);
    forall q | q in w'.procs ensures StartedClose(every, w'.streams, w'.procs[q]) {
      assert q != p ==> StartedClose(every, w.streams, w.procs[q]);
    }
  }

  lemma AppendKeepsShape(every: nat, p: nat, w: World)
    requires every >= 1 && Shape(every, p, w) && p in w.procs && w.procs[p].Holding?
    ensures Shape(every, p, AfterAppend(every, w, p, w.procs[p]))
  {
    var agg, w' := w.procs[p].agg, AfterAppend(every, w, p, w.procs[p]);
    AppendKeepsLookups(every, w, p);
    QuotientGrows(agg.version, agg.version + |agg.pending|, every);
    forall id | !SnapshotDue(w', id)
      ensures SnapshotVersion(w', id) / every == |StreamOf(w'.streams, id)| / every
    {
      assert !SnapshotDue(w, id);
      assert w'.procs[p].Snapshotting? ==> w'.procs[p].id != id;
    }
  }

  lemma WriteKeepsShape(b: Behaviour, every: nat, p: nat, w: World)
    requires every >= 1 && Shape(every, p, w) && p in w.procs && w.procs[p].Snapshotting?
    ensures Shape(every, p, Next(b, every, w, WriteSnapshot(p, true)))
  {
    var w' := Next(b, every, w, WriteSnapshot(p, true));
    forall id | !SnapshotDue(w', id)
      ensures SnapshotVersion(w', id) / every == |StreamOf(w'.streams, id)| / every
    {
      assert id != w.procs[p].id ==> !SnapshotDue(w, id);
    }
    forall q | q in w'.procs ensures StartedClose(every, w'.streams, w'.procs[q]) {
      assert q != p ==> StartedClose(every, w.streams, w.procs[q]);
    }
  }

  /** Any step that neither appends nor writes a snapshot moves one process between looking and holding. */
  lemma QuietKeepsShape(every: nat, p: nat, w: World, w': World, q: nat)
    requires every >= 1 && Shape(every, p, w) && w'.streams == w.streams && w'.snaps == w.snaps
    requires forall x :: x != q ==> (x in w.procs <==> x in w'.procs) && (x in w.procs ==> w'.procs[x] == w.procs[x])
    requires q in w.procs ==> !w.procs[q].Snapshotting?
    requires q in w'.procs ==> !w'.procs[q].Snapshotting? && StartedClose(every, w.streams, w'.procs[q])
    ensures Shape(every, p, w')
  {
    assert forall x :: x in w.procs && w.procs[x].Snapshotting? ==> x in w'.procs && w'.procs[x] == w.procs[x];
    assert forall id :: SnapshotDue(w, id) ==> SnapshotDue(w', id);
  }

  lemma LoadStartsClose(b: Behaviour, every: nat, p: nat, w: World, q: nat, id: Id)
    requires every >= 1 && Inv(b, w) && Shape(every, p, w) && q !in w.procs
    ensures StartedClose(every, w.streams, Next(b, every, w, LoadSnapshot(q, id, true)).procs[q])
  {
    assert id in w.snaps ==> SnapshotOk(b, StreamOf(w.streams, id), w.snaps[id]);
  }

  lemma StepKeepsShape(b: Behaviour, every: nat, p: nat, w: World, a: Action)
    requires every >= 1 && Inv(b, w) && Shape(every, p, w) && OneWriterStep(p, w, a)
    ensures Shape(every, p, Next(b, every, w, a))
  {
    if Next(b, every, w, a) != w {
      match a {
        case Append(q) => AppendKeepsShape(every, p, w);
        case WriteSnapshot(q, ok) => WriteKeepsShape(b, every, p, w);
        case LoadSnapshot(q, id, ok) =>
          LoadStartsClose(b, every, p, w, q, id);
          QuietKeepsShape(every, p, w, Next(b, every, w, a), q);
        case _ => QuietKeepsShape(every, p, w, Next(b, every, w, a), a.p);
      }
    }
  }

  lemma {:induction false} OneWriterKeepsShape(b: Behaviour, every: nat, p: nat, acts: seq<Action>)
    requires every >= 1 && OneWriterRun(b, every, p, acts)
    ensures Shape(every, p, Run(b, every, acts))
  {
    if acts == [] {
      assert 0 / every == 0;
    } else {
      var init := acts[..|acts| - 1];
      forall n | 0 <= n < |init| ensures OneWriterStep(p, Run(b, every, init[..n]), init[n]) {
        assert init[..n] == acts[..n];
      }
      OneWriterKeepsShape(b, every, p, init);
      RunKeepsInv(b, every, init);
      StepKeepsShape(b, every, p, Run(b, every, init), acts[|acts| - 1]);
    }
  }

  lemma SameQuotient(a: nat, c: nat, every: nat)
    requires every >= 1 && a <= c && a / every == c / every
    ensures c - a < every
  {
    assert a == every * (a / every) + a % every;
    assert c == every * (c / every) + c % every;
  }

  /** How many events a lookup under way would replay if it loaded the tail now. */
  function ReplayLength(w: World, q: nat): nat
    requires q in w.procs && w.procs[q].Looking?
  {
    |LoadAfter(StreamOf(w.streams, w.procs[q].id), w.procs[q].start.version)|
  }

  /** How many events were appended to the stream since a lookup loaded its snapshot. */
  function AppendedSince(w: World, q: nat): int
    requires q in w.procs && w.procs[q].Looking?
  {
    |StreamOf(w.streams, w.procs[q].id)| - w.procs[q].seen
  }

  /**
   * With one writer, any number of processes looking up and a reliable snapshot
   * store, a lookup begun while no snapshot of its aggregate was due replays
   * fewer than `snapshot_every` events plus those appended since it began, and
   * fewer than `snapshot_every` exactly when the appended ones fit into what was
   * left of the interval.
   */
  lemma ReplayIsBounded(b: Behaviour, every: nat, p: nat, acts: seq<Action>, q: nat)
    requires every >= 1 && OneWriterRun(b, every, p, acts)
    requires var w := Run(b, every, acts); q in w.procs && w.procs[q].Looking? && !w.procs[q].due
    ensures var w := Run(b, every, acts);
            var behind := w.procs[q].seen - w.procs[q].start.version;
            && 0 <= AppendedSince(w, q) && ReplayLength(w, q) < every + AppendedSince(w, q)
            && 0 <= behind < every && (ReplayLength(w, q) < every <==> AppendedSince(w, q) < every - behind)
  {
    OneWriterKeepsShape(b, every, p, acts);
    RunKeepsInv(b, every, acts);
    var w := Run(b, every, acts);
    var pc := w.procs[q];
    assert StartedClose(every, w.streams, pc);
    assert AllNumbered(w.streams);
    LoadAfterIsTail(StreamOf(w.streams, pc.id), pc.start.version);
    SameQuotient(pc.start.version, pc.seen, every);
  }

  /** So a lookup that nothing was appended under replays fewer than `snapshot_every` events. */
  lemma QuietReplayIsBounded(b: Behaviour, every: nat, p: nat, acts: seq<Action>, q: nat)
    requires every >= 1 && OneWriterRun(b, every, p, acts)
    requires var w := Run(b, every, acts);
             q in w.procs && w.procs[q].Looking? && !w.procs[q].due && AppendedSince(w, q) == 0
    ensures ReplayLength(Run(b, every, acts), q) < every
  {
    ReplayIsBounded(b, every, p, acts, q);
  }

  // ---------------------------------------------------------------- both conditions are needed

  lemma OneMoreStep(b: Behaviour, every: nat, p: nat, acts: seq<Action>, a: Action)
    requires every >= 1 && OneWriterRun(b, every, p, acts) && OneWriterStep(p, Run(b, every, acts), a)
    ensures Run(b, every, acts + [a]) == Next(b, every, Run(b, every, acts), a)
    ensures OneWriterRun(b, every, p, acts + [a])
  {
    var more := acts + [a];
    assert more[..|acts|] == acts;
    forall n | 0 <= n < |more| ensures OneWriterStep(p, Run(b, every, more[..n]), more[n]) {
      if n < |acts| {
        assert more[..n] == acts[..n];
      }
    }
  }

  lemma OneEventReplayed(stream: Stream)
    requires |stream| == 1 && Numbered(stream)
    ensures |LoadAfter(stream, 0)| == 1
  {
    LoadAfterIsTail(stream, 0);
  }

  /** A lookup that an append overtakes replays as many events as a whole interval, here of one. */
  lemma OvertakenLookup(b: Behaviour, id: Id, e: Event) returns (acts: seq<Action>)
    ensures OneWriterRun(b, 1, 0, acts)
    ensures var w := Run(b, 1, acts);
            1 in w.procs && w.procs[1].Looking? && !w.procs[1].due && AppendedSince(w, 1) == 1 && ReplayLength(w, 1) == 1
  {
    acts := [];
    OneMoreStep(b, 1, 0, acts, Create(0, id));
    acts := acts + [Create(0, id)];
    OneMoreStep(b, 1, 0, acts, LoadSnapshot(1, id, true));
    acts := acts + [LoadSnapshot(1, id, true)];
    OneMoreStep(b, 1, 0, acts, Raise(0, e));
    acts := acts + [Raise(0, e)];
    OneMoreStep(b, 1, 0, acts, Append(0));
    acts := acts + [Append(0)];
    RunKeepsInv(b, 1, acts);
    OneEventReplayed(StreamOf(Run(b, 1, acts).streams, id));
  }

  /** So does one that begins while the snapshot is due, although nothing is appended under it. */
  lemma LookupBeforeTheSnapshot(b: Behaviour, id: Id, e: Event) returns (acts: seq<Action>)
    ensures OneWriterRun(b, 1, 0, acts)
    ensures var w := Run(b, 1, acts);
            1 in w.procs && w.procs[1].Looking? && w.procs[1].due && AppendedSince(w, 1) == 0 && ReplayLength(w, 1) == 1
  {
    acts := [];
    OneMoreStep(b, 1, 0, acts, Create(0, id));
    acts := acts + [Create(0, id)];
    OneMoreStep(b, 1, 0, acts, Raise(0, e));
    acts := acts + [Raise(0, e)];
    OneMoreStep(b, 1, 0, acts, Append(0));
    acts := acts + [Append(0)];
    assert Run(b, 1, acts).procs[0].Snapshotting?;
    OneMoreStep(b, 1, 0, acts, LoadSnapshot(1, id, true));
    acts := acts + [LoadSnapshot(1, id, true)];
    RunKeepsInv(b, 1, acts);
    OneEventReplayed(StreamOf(Run(b, 1, acts).streams, id));
  }
}
