/**
 * `save_and_enqueue_in` over `InMemoryUnitOfWork`: map every pending event,
 * take the transaction mutex, stage the aggregate under a version check, stage
 * the messages, and apply both at commit.
 */
module UnitOfWork {
  import opened Common

  type Id(==, !new)
  type State(!new)
  type Event(!new)
  type Message(!new)

  datatype Aggregate = Aggregate(id: Id, state: State, version: nat, pending: seq<Event>)

  type Stored = map<Id, Aggregate>

  /** An outbox row, with the aggregate it speaks for. */
  datatype Queued = Queued(id: Id, message: Message)

  /** Staged writes of one transaction; nothing is visible before commit. */
  datatype Tx = Tx(staged: Option<Aggregate>, outbox: seq<Queued>)

  datatype Result = Committed | MappingFailed | Conflicted(expected: nat, actual: Option<nat>)

  /** `None` when some event cannot be mapped. */
  function MapAll(mapping: Event -> Option<Message>, id: Id, events: seq<Event>): Option<seq<Queued>> {
    if events == [] then Some([])
    else
      var n := |events| - 1;
      var front := MapAll(mapping, id, events[..n]);
      var last := mapping(events[n]);
      if front.None? || last.None? then None else Some(front.value + [Queued(id, last.value)])
  }

  function VersionOf(stored: Stored, id: Id): nat {
    if id in stored then stored[id].version else 0
  }

  ghost predicate WellStored(stored: Stored) {
    forall id :: id in stored ==> stored[id].id == id && stored[id].version >= 1 && stored[id].pending == []
  }

  /** The version check of `save_in_tx`: an unknown aggregate must be at version 0. */
  predicate Matches(stored: Stored, agg: Aggregate) {
    if agg.id in stored then stored[agg.id].version == agg.version else agg.version == 0
  }

  function Saved(agg: Aggregate): Aggregate {
    agg.(version := agg.version + 1, pending := [])
  }

  class InMemoryUnitOfWork {
    var aggregates: Stored
    var outbox: seq<Queued>

    ghost predicate Valid() reads this {
      WellStored(aggregates)
    }

    constructor ()
      ensures Valid() && aggregates == map[] && outbox == []
    {
      aggregates := map[];
      outbox := [];
    }

    method SaveInTx(tx: Tx, agg: Aggregate) returns (ok: bool, tx': Tx, agg': Aggregate)
      requires Valid()
      ensures ok <==> Matches(aggregates, agg)
      ensures ok <==> (if agg.id in aggregates then aggregates[agg.id].version else 0) == agg.version
      ensures ok ==> tx' == tx.(staged := Some(Saved(agg))) && agg' == agg.(version := agg.version + 1)
      ensures ok ==> tx'.staged == Some(Aggregate(agg.id, agg.state, agg.version + 1, []))
      ensures !ok ==> tx' == tx && agg' == agg
    {
      if agg.id in aggregates {
        if aggregates[agg.id].version != agg.version {
          return false, tx, agg;
        }
      } else if agg.version != 0 {
        return false, tx, agg;
      }
      agg' := agg.(version := agg.version + 1);
      return true, tx.(staged := Some(agg'.(pending := []))), agg';
    }

    method Commit(tx: Tx)
      requires Valid() && (tx.staged.Some? ==> tx.staged.value.version >= 1 && tx.staged.value.pending == [])
      modifies this
      ensures Valid()
      ensures aggregates == if tx.staged.Some? then old(aggregates)[tx.staged.value.id := tx.staged.value] else old(aggregates)
      ensures outbox == old(outbox) + tx.outbox
    {
      if tx.staged.Some? {
        aggregates := aggregates[tx.staged.value.id := tx.staged.value];
      }
      ghost var before := outbox;
      for i := 0 to |tx.outbox|
        invariant outbox == before + tx.outbox[..i]
        invariant aggregates == if tx.staged.Some? then old(aggregates)[tx.staged.value.id := tx.staged.value] else old(aggregates)
      {
        assert tx.outbox[..i + 1] == tx.outbox[..i] + [tx.outbox[i]];
        outbox := outbox + [tx.outbox[i]];
      }
      assert tx.outbox[..|tx.outbox|] == tx.outbox;
    }

    /** Both the aggregate and all of its messages, or neither; a failure leaves the caller's aggregate as it was. */
    method SaveAndEnqueueIn(agg: Aggregate, mapping: Event -> Option<Message>) returns (result: Result, after: Aggregate)
      requires Valid()
      modifies this
      ensures Valid()
      ensures result.MappingFailed? <==> MapAll(mapping, agg.id, agg.pending).None?
      ensures result.Conflicted? <==> MapAll(mapping, agg.id, agg.pending).Some? && !Matches(old(aggregates), agg)
      ensures !result.Committed? ==> aggregates == old(aggregates) && outbox == old(outbox) && after == agg
      ensures result.Committed? ==>
                && aggregates == old(aggregates)[agg.id := Saved(agg)]
                && outbox == old(outbox) + MapAll(mapping, agg.id, agg.pending).value
                && after == Saved(agg) == Aggregate(agg.id, agg.state, agg.version + 1, [])
      ensures result.Conflicted? ==>
                && result.expected == agg.version
                && result.actual == (if agg.id in old(aggregates) then Some(old(aggregates)[agg.id].version) else None)
    {
      var expected := agg.version;
      after := agg;
      var messages: seq<Queued> := [];
      for i := 0 to |agg.pending|
        invariant MapAll(mapping, agg.id, agg.pending[..i]) == Some(messages)
      {
        var mapped := mapping(agg.pending[i]);
        assert agg.pending[..i + 1][..i] == agg.pending[..i];
        if mapped.None? {
          UnmappedPrefix(mapping, agg.id, agg.pending, i + 1);
          return MappingFailed, after;
        }
        messages := messages + [Queued(agg.id, mapped.value)];
      }
      assert agg.pending[..|agg.pending|] == agg.pending;

      var tx := Tx(None, []);
      var ok;
      ok, tx, after := SaveInTx(tx, agg);
      if !ok {
        after := after.(version := expected);
        return Conflicted(expected, if agg.id in aggregates then Some(aggregates[agg.id].version) else None), after;
      }
      for i := 0 to |messages|
        invariant tx == Tx(Some(Saved(agg)), messages[..i])
      {
        assert messages[..i + 1] == messages[..i] + [messages[i]];
        tx := tx.(outbox := tx.outbox + [messages[i]]);
      }
      assert messages[..|messages|] == messages;
      Commit(tx);
      after := after.(pending := []);
      return Committed, after;
    }
  }

  /** A batch maps exactly when each of its events does, to one message per event, in order. */
  lemma {:induction false} MapsEachEventOnce(mapping: Event -> Option<Message>, id: Id, events: seq<Event>)
    ensures var r := MapAll(mapping, id, events);
            && (r.Some? <==> forall i :: 0 <= i < |events| ==> mapping(events[i]).Some?)
            && (r.Some? ==> |r.value| == |events|
                            && forall i :: 0 <= i < |events| ==> r.value[i] == Queued(id, mapping(events[i]).value))
  {
    if events != [] {
      MapsEachEventOnce(mapping, id, events[..|events| - 1]);
    }
  }

  lemma {:induction false} UnmappedPrefix(mapping: Event -> Option<Message>, id: Id, events: seq<Event>, n: nat)
    requires n <= |events| && MapAll(mapping, id, events[..n]).None?
    ensures MapAll(mapping, id, events).None?
    decreases |events|
  {
    if n == |events| {
      assert events[..n] == events;
    } else {
      var last := |events| - 1;
      assert events[..last][..n] == events[..n];
      UnmappedPrefix(mapping, id, events[..last], n);
    }
  }
}

/**
 * Any number of `save_and_enqueue_in` calls interleaved. Mapping happens before
 * the mutex is taken; the version check, the staging and the commit happen
 * while it is held, and the commit itself is taken apart: the aggregate becomes
 * visible first, then one message after the other.
 */
module UnitOfWorkProtocol {
  import opened Common
  import opened UnitOfWork

  datatype Stage =
    | Idle
    | Mapped(messages: seq<Queued>)
    | InTx(messages: seq<Queued>)
    | Staged(messages: seq<Queued>, tx: Tx)
    | Committing(messages: seq<Queued>, next: nat)

  datatype Proc = Proc(agg: Aggregate, stage: Stage)

  /** A committed save: who made it, the version it replaced and the events it carried. */
  datatype Commit = Commit(author: nat, id: Id, base: nat, state: State, events: seq<Event>)

  datatype World = World(aggregates: Stored, outbox: seq<Queued>, lock: Option<nat>, procs: map<nat, Proc>, log: seq<Commit>)

  datatype Action =
    | Create(p: nat, id: Id, state: State)
    | Find(p: nat, id: Id)
    | Mutate(p: nat, state: State, events: seq<Event>)
    | Call(p: nat)
    | Begin(p: nat)
    | SaveInTx(p: nat)
    | InsertInTx(p: nat)
    | CommitTx(p: nat)
    | Flush(p: nat)
    | Finish(p: nat)
    | Release(p: nat)

  const EMPTY := World(map[], [], None, map[], [])

  function Goto(w: World, p: nat, stage: Stage): World
    requires p in w.procs
  {
    w.(procs := w.procs[p := w.procs[p].(stage := stage)])
  }

  function AfterSaveInTx(w: World, p: nat): World
    requires p in w.procs && w.procs[p].stage.InTx?
  {
    var agg, messages := w.procs[p].agg, w.procs[p].stage.messages;
    if Matches(w.aggregates, agg) then
      w.(procs := w.procs[p := Proc(agg.(version := agg.version + 1), Staged(messages, Tx(Some(Saved(agg)), [])))])
    else
      Goto(w, p, Idle).(lock := None)
  }

  function AfterCommit(w: World, p: nat): World
    requires p in w.procs && w.procs[p].stage.Staged? && w.procs[p].stage.tx.staged.Some?
  {
    var proc := w.procs[p];
    var saved := proc.stage.tx.staged.value;
    Goto(w, p, Committing(proc.stage.messages, 0)).(
      aggregates := w.aggregates[saved.id := saved],
      log := w.log + [Commit(p, saved.id, VersionOf(w.aggregates, saved.id), saved.state, proc.agg.pending)])
  }

  function Next(mapping: Event -> Option<Message>, w: World, a: Action): World {
    match a
    case Create(p, id, state) =>
      if p in w.procs then w else w.(procs := w.procs[p := Proc(Aggregate(id, state, 0, []), Idle)])
    case Find(p, id) =>
      if p in w.procs || id !in w.aggregates then w else w.(procs := w.procs[p := Proc(w.aggregates[id], Idle)])
    case Mutate(p, state, events) =>
      if p in w.procs && w.procs[p].stage.Idle? then
        var agg := w.procs[p].agg;
        w.(procs := w.procs[p := Proc(agg.(state := state, pending := agg.pending + events), Idle)])
      else w
    case Call(p) =>
      if p in w.procs && w.procs[p].stage.Idle? then
        match MapAll(mapping, w.procs[p].agg.id, w.procs[p].agg.pending)
        case None => w
        case Some(messages) => Goto(w, p, Mapped(messages))
      else w
    case Begin(p) =>
      if p in w.procs && w.procs[p].stage.Mapped? && w.lock.None?
      then Goto(w, p, InTx(w.procs[p].stage.messages)).(lock := Some(p)) else w
    case SaveInTx(p) =>
      if p in w.procs && w.procs[p].stage.InTx? then AfterSaveInTx(w, p) else w
    case InsertInTx(p) =>
      if p in w.procs && w.procs[p].stage.Staged? && |w.procs[p].stage.tx.outbox| < |w.procs[p].stage.messages| then
        var stage := w.procs[p].stage;
        Goto(w, p, stage.(tx := stage.tx.(outbox := stage.tx.outbox + [stage.messages[|stage.tx.outbox|]])))
      else w
    case CommitTx(p) =>
      if p in w.procs && w.procs[p].stage.Staged? && w.procs[p].stage.tx.staged.Some?
         && |w.procs[p].stage.tx.outbox| == |w.procs[p].stage.messages|
      then AfterCommit(w, p) else w
    case Flush(p) =>
      if p in w.procs && w.procs[p].stage.Committing? && w.procs[p].stage.next < |w.procs[p].stage.messages| then
        var stage := w.procs[p].stage;
        Goto(w, p, stage.(next := stage.next + 1)).(outbox := w.outbox + [stage.messages[stage.next]])
      else w
    case Finish(p) =>
      if p in w.procs && w.procs[p].stage.Committing? && w.procs[p].stage.next == |w.procs[p].stage.messages|
      then w.(lock := None, procs := w.procs[p := Proc(w.procs[p].agg.(pending := []), Idle)]) else w
    case Release(p) =>
      if p in w.procs && w.procs[p].stage.Idle? then w.(procs := w.procs - {p}) else w
  }

  function RunFrom(mapping: Event -> Option<Message>, w: World, acts: seq<Action>): World {
    if acts == [] then w else Next(mapping, RunFrom(mapping, w, acts[..|acts| - 1]), acts[|acts| - 1])
  }

  // ---------------------------------------------------------------- invariant

  function CommitCount(log: seq<Commit>, id: Id): nat {
    if log == [] then 0
    else CommitCount(log[..|log| - 1], id) + (if log[|log| - 1].id == id then 1 else 0)
  }

  /** Reference: the messages of every committed batch, batch after batch. */
  function AllMessages(mapping: Event -> Option<Message>, log: seq<Commit>): seq<Queued> {
    if log == [] then []
    else
      var n := |log| - 1;
      var batch := MapAll(mapping, log[n].id, log[n].events);
      AllMessages(mapping, log[..n]) + (if batch.Some? then batch.value else [])
  }

  /** Reference: the aggregate the history describes. */
  function LastCommitted(log: seq<Commit>, id: Id): Option<Aggregate> {
    if log == [] then None
    else
      var n := |log| - 1;
      if log[n].id == id then Some(Aggregate(id, log[n].state, log[n].base + 1, [])) else LastCommitted(log[..n], id)
  }

  /** Each commit replaced exactly the version that the commits before it had produced. */
  ghost predicate VersionOrder(log: seq<Commit>) {
    forall i :: 0 <= i < |log| ==> log[i].base == CommitCount(log[..i], log[i].id)
  }

  lemma PrefixInVersionOrder(log: seq<Commit>, n: nat)
    requires VersionOrder(log) && n <= |log|
    ensures VersionOrder(log[..n])
    ensures n < |log| ==> log[n].base == CommitCount(log[..n], log[n].id)
  {
    forall i | 0 <= i < n ensures log[..n][i].base == CommitCount(log[..n][..i], log[..n][i].id) {
      assert log[..n][..i] == log[..i];
    }
  }

  /** The store is what the history describes. */
  ghost predicate StoreOk(aggregates: Stored, log: seq<Commit>) {
    && WellStored(aggregates)
    && VersionOrder(log)
    && (forall id :: (if id in aggregates then Some(aggregates[id]) else None) == LastCommitted(log, id))
    && (forall id :: VersionOf(aggregates, id) == CommitCount(log, id))
  }

  /** Only batches whose every event maps are ever committed. */
  ghost predicate AllMapped(mapping: Event -> Option<Message>, log: seq<Commit>) {
    forall i :: 0 <= i < |log| ==> MapAll(mapping, log[i].id, log[i].events).Some?
  }

  lemma PrefixIsMapped(mapping: Event -> Option<Message>, log: seq<Commit>, n: nat)
    requires AllMapped(mapping, log) && n <= |log|
    ensures AllMapped(mapping, log[..n])
  {
  }

  predicate Locked(stage: Stage) {
    stage.InTx? || stage.Staged? || stage.Committing?
  }

  /** What a process holds is at most the stored version, or one ahead while staged under the mutex. */
  ghost predicate ProcOk(mapping: Event -> Option<Message>, aggregates: Stored, log: seq<Commit>, lock: Option<nat>, p: nat, proc: Proc) {
    var agg, stage := proc.agg, proc.stage;
    && (Locked(stage) <==> lock == Some(p))
    && (!stage.Idle? ==> MapAll(mapping, agg.id, agg.pending) == Some(stage.messages))
    && (!stage.Staged? ==> agg.version <= VersionOf(aggregates, agg.id))
    && (stage.Staged? ==>
          && agg.version >= 1
          && Matches(aggregates, agg.(version := agg.version - 1))
          && stage.tx.staged == Some(agg.(pending := []))
          && stage.tx.outbox <= stage.messages)
    && (stage.Committing? ==>
          && stage.next <= |stage.messages|
          && log != []
          && log[|log| - 1].id == agg.id && log[|log| - 1].events == agg.pending)
  }

  ghost predicate ProcsOk(mapping: Event -> Option<Message>, w: World) {
    && (forall p :: p in w.procs ==> ProcOk(mapping, w.aggregates, w.log, w.lock, p, w.procs[p]))
    && (w.lock.Some? ==> w.lock.value in w.procs)
  }

  /** The stage of the transaction that holds the mutex, if there is one. */
  function Holder(w: World): Stage {
    if w.lock.Some? && w.lock.value in w.procs then w.procs[w.lock.value].stage else Idle
  }

  /** How far the commit in progress, if any, has got with its messages. */
  ghost predicate OutboxOk(mapping: Event -> Option<Message>, outbox: seq<Queued>, log: seq<Commit>, holder: Stage) {
    if holder.Committing? then
      && log != [] && holder.next <= |holder.messages|
      && outbox == AllMessages(mapping, log[..|log| - 1]) + holder.messages[..holder.next]
    else
      outbox == AllMessages(mapping, log)
  }

  ghost predicate Inv(mapping: Event -> Option<Message>, w: World) {
    && StoreOk(w.aggregates, w.log)
    && AllMapped(mapping, w.log)
    && ProcsOk(mapping, w)
    && OutboxOk(mapping, w.outbox, w.log, Holder(w))
  }

  lemma CountsAfter(log: seq<Commit>, c: Commit, id: Id)
    ensures CommitCount(log + [c], id) == CommitCount(log, id) + (if id == c.id then 1 else 0)
    ensures LastCommitted(log + [c], id)
         == if id == c.id then Some(Aggregate(id, c.state, c.base + 1, [])) else LastCommitted(log, id)
  {
    assert (log + [c])[..|log|] == log;
  }

  lemma AppendCommit(log: seq<Commit>, c: Commit)
    requires VersionOrder(log) && c.base == CommitCount(log, c.id)
    ensures VersionOrder(log + [c])
  {
    var log' := log + [c];
    forall i | 0 <= i < |log'| ensures log'[i].base == CommitCount(log'[..i], log'[i].id) {
      assert log'[..i] == log[..i];
      assert i == |log| ==> log[..i] == log;
    }
  }

  /** Storing a staged aggregate and logging it keeps store and history in step. */
  lemma CommitKeepsStore(aggregates: Stored, log: seq<Commit>, saved: Aggregate, c: Commit)
    requires StoreOk(aggregates, log) && saved.version == VersionOf(aggregates, saved.id) + 1 && saved.pending == []
    requires c.id == saved.id && c.base == VersionOf(aggregates, saved.id) && c.state == saved.state
    ensures StoreOk(aggregates[saved.id := saved], log + [c])
  {
    assert VersionOf(aggregates, c.id) == CommitCount(log, c.id);
    AppendCommit(log, c);
    var aggregates' := aggregates[saved.id := saved];
    forall id ensures (if id in aggregates' then Some(aggregates'[id]) else None) == LastCommitted(log + [c], id) {
      CountsAfter(log, c, id);
      assert id != c.id ==> (if id in aggregates then Some(aggregates[id]) else None) == LastCommitted(log, id);
    }
    forall id ensures VersionOf(aggregates', id) == CommitCount(log + [c], id) {
      CountsAfter(log, c, id);
      assert VersionOf(aggregates, id) == CommitCount(log, id);
    }
  }

  /** A process outside the mutex is not affected by a commit, except that it may have fallen behind. */
  lemma CommitKeepsOthers(mapping: Event -> Option<Message>, w: World, p: nat, q: nat)
    requires ProcsOk(mapping, w) && p in w.procs && w.procs[p].stage.Staged? && q in w.procs && q != p
    ensures var w' := AfterCommit(w, p); ProcOk(mapping, w'.aggregates, w'.log, w'.lock, q, w.procs[q])
  {
    assert ProcOk(mapping, w.aggregates, w.log, w.lock, p, w.procs[p]);
    assert ProcOk(mapping, w.aggregates, w.log, w.lock, q, w.procs[q]);
  }

  lemma CommitKeepsProcs(mapping: Event -> Option<Message>, w: World, p: nat)
    requires ProcsOk(mapping, w) && p in w.procs && w.procs[p].stage.Staged?
    ensures ProcsOk(mapping, AfterCommit(w, p))
  {
    var w' := AfterCommit(w, p);
    assert ProcOk(mapping, w.aggregates, w.log, w.lock, p, w.procs[p]);
    forall q | q in w'.procs ensures ProcOk(mapping, w'.aggregates, w'.log, w'.lock, q, w'.procs[q]) {
      if q != p {
        CommitKeepsOthers(mapping, w, p, q);
      }
    }
  }

  lemma CommitKeepsInv(mapping: Event -> Option<Message>, w: World, p: nat)
    requires Inv(mapping, w) && p in w.procs && w.procs[p].stage.Staged?
    ensures Inv(mapping, AfterCommit(w, p))
  {
    var w' := AfterCommit(w, p);
    assert ProcOk(mapping, w.aggregates, w.log, w.lock, p, w.procs[p]);
    CommitKeepsStore(w.aggregates, w.log, w.procs[p].stage.tx.staged.value, w'.log[|w.log|]);
    CommitKeepsProcs(mapping, w, p);
    assert w'.log[..|w.log|] == w.log;
  }

  predicate CanFlush(w: World, p: nat) {
    p in w.procs && w.procs[p].stage.Committing? && w.procs[p].stage.next < |w.procs[p].stage.messages|
  }

  lemma FlushKeepsInv(mapping: Event -> Option<Message>, w: World, p: nat)
    requires Inv(mapping, w) && CanFlush(w, p)
    ensures Inv(mapping, Next(mapping, w, Flush(p)))
  {
    var w', stage := Next(mapping, w, Flush(p)), w.procs[p].stage;
    assert ProcOk(mapping, w.aggregates, w.log, w.lock, p, w.procs[p]);
    assert ProcsOk(mapping, w');
    assert stage.messages[..stage.next + 1] == stage.messages[..stage.next] + [stage.messages[stage.next]];
  }

  predicate CanFinish(w: World, p: nat) {
    p in w.procs && w.procs[p].stage.Committing? && w.procs[p].stage.next == |w.procs[p].stage.messages|
  }

  /** The last flushed message completes the committed batch. */
  lemma FinishKeepsInv(mapping: Event -> Option<Message>, w: World, p: nat)
    requires Inv(mapping, w) && CanFinish(w, p)
    ensures Inv(mapping, Next(mapping, w, Finish(p)))
  {
    var w', stage := Next(mapping, w, Finish(p)), w.procs[p].stage;
    assert ProcOk(mapping, w.aggregates, w.log, w.lock, p, w.procs[p]);
    assert ProcsOk(mapping, w');
    assert stage.messages[..stage.next] == stage.messages;
  }

  /** A step of one process that touches neither the store, the outbox nor the history, outside of a commit. */
  ghost predicate Local(w: World, w': World, p: nat) {
    && w'.aggregates == w.aggregates && w'.log == w.log && w'.outbox == w.outbox
    && (forall q :: q != p ==> (q in w.procs <==> q in w'.procs))
    && (forall q :: q != p && q in w.procs ==> w'.procs[q] == w.procs[q])
    && (p in w.procs ==> !w.procs[p].stage.Committing?)
    && (p in w'.procs ==> !w'.procs[p].stage.Committing?)
    && (w'.lock == w.lock || (w.lock.None? && w'.lock == Some(p)) || (w.lock == Some(p) && w'.lock.None?))
    && (w'.lock == Some(p) ==> p in w'.procs)
  }

  lemma LocalKeepsInv(mapping: Event -> Option<Message>, w: World, w': World, p: nat)
    requires Inv(mapping, w) && Local(w, w', p)
    requires p in w'.procs ==> ProcOk(mapping, w'.aggregates, w'.log, w'.lock, p, w'.procs[p])
    ensures Inv(mapping, w')
  {
    forall q | q in w'.procs && q != p ensures ProcOk(mapping, w'.aggregates, w'.log, w'.lock, q, w'.procs[q]) {
      assert ProcOk(mapping, w.aggregates, w.log, w.lock, q, w.procs[q]);
    }
  }

  predicate BeforeTx(a: Action) {
    a.Create? || a.Find? || a.Mutate? || a.Call? || a.Release?
  }

  lemma BeforeTxKeepsInv(mapping: Event -> Option<Message>, w: World, a: Action)
    requires Inv(mapping, w) && BeforeTx(a)
    ensures Inv(mapping, Next(mapping, w, a))
  {
    var w' := Next(mapping, w, a);
    if w' != w {
      assert a.p in w.procs ==> ProcOk(mapping, w.aggregates, w.log, w.lock, a.p, w.procs[a.p]);
      LocalKeepsInv(mapping, w, w', a.p);
    }
  }

  lemma BeginKeepsInv(mapping: Event -> Option<Message>, w: World, p: nat)
    requires Inv(mapping, w)
    ensures Inv(mapping, Next(mapping, w, Begin(p)))
  {
    var w' := Next(mapping, w, Begin(p));
    if w' != w {
      assert ProcOk(mapping, w.aggregates, w.log, w.lock, p, w.procs[p]);
      LocalKeepsInv(mapping, w, w', p);
    }
  }

  lemma SaveInTxKeepsProc(mapping: Event -> Option<Message>, w: World, p: nat)
    requires p in w.procs && w.procs[p].stage.InTx? && ProcOk(mapping, w.aggregates, w.log, w.lock, p, w.procs[p])
    ensures var w' := AfterSaveInTx(w, p); ProcOk(mapping, w'.aggregates, w'.log, w'.lock, p, w'.procs[p])
  {
  }

  lemma SaveInTxIsLocal(w: World, p: nat)
    requires p in w.procs && w.procs[p].stage.InTx? && w.lock == Some(p)
    ensures Local(w, AfterSaveInTx(w, p), p)
  {
  }

  lemma SaveInTxKeepsInv(mapping: Event -> Option<Message>, w: World, p: nat)
    requires Inv(mapping, w) && p in w.procs && w.procs[p].stage.InTx?
    ensures Inv(mapping, AfterSaveInTx(w, p))
  {
    assert ProcOk(mapping, w.aggregates, w.log, w.lock, p, w.procs[p]);
    SaveInTxKeepsProc(mapping, w, p);
    SaveInTxIsLocal(w, p);
    LocalKeepsInv(mapping, w, AfterSaveInTx(w, p), p);
  }

  lemma InsertInTxKeepsProc(mapping: Event -> Option<Message>, w: World, p: nat)
    requires p in w.procs && w.procs[p].stage.Staged? && |w.procs[p].stage.tx.outbox| < |w.procs[p].stage.messages|
    requires ProcOk(mapping, w.aggregates, w.log, w.lock, p, w.procs[p])
    ensures var w' := Next(mapping, w, InsertInTx(p)); ProcOk(mapping, w.aggregates, w.log, w.lock, p, w'.procs[p])
  {
    var stage := w.procs[p].stage;
    var outbox := stage.tx.outbox;
    assert outbox + [stage.messages[|outbox|]] == stage.messages[..|outbox| + 1];
  }

  lemma InsertInTxKeepsInv(mapping: Event -> Option<Message>, w: World, p: nat)
    requires Inv(mapping, w)
    requires p in w.procs && w.procs[p].stage.Staged? && |w.procs[p].stage.tx.outbox| < |w.procs[p].stage.messages|
    ensures Inv(mapping, Next(mapping, w, InsertInTx(p)))
  {
    InsertInTxKeepsProc(mapping, w, p);
    LocalKeepsInv(mapping, w, Next(mapping, w, InsertInTx(p)), p);
  }

  lemma StepKeepsInv(mapping: Event -> Option<Message>, w: World, a: Action)
    requires Inv(mapping, w)
    ensures Inv(mapping, Next(mapping, w, a))
  {
    if BeforeTx(a) {
      BeforeTxKeepsInv(mapping, w, a);
    } else if Next(mapping, w, a) != w {
      match a {
        case Begin(p) => BeginKeepsInv(mapping, w, p);
        case SaveInTx(p) => SaveInTxKeepsInv(mapping, w, p);
        case InsertInTx(p) => InsertInTxKeepsInv(mapping, w, p);
        case CommitTx(p) => CommitKeepsInv(mapping, w, p);
        case Flush(p) => FlushKeepsInv(mapping, w, p);
        case Finish(p) => FinishKeepsInv(mapping, w, p);
      }
    }
  }

  lemma {:induction false} RunKeepsInv(mapping: Event -> Option<Message>, w: World, acts: seq<Action>)
    requires Inv(mapping, w)
    ensures Inv(mapping, RunFrom(mapping, w, acts))
  {
    if acts != [] {
      RunKeepsInv(mapping, w, acts[..|acts| - 1]);
      StepKeepsInv(mapping, RunFrom(mapping, w, acts[..|acts| - 1]), acts[|acts| - 1]);
    }
  }

  // ---------------------------------------------------------------- theorems over every run

  /**
   * If every write is transactional, the stored version of an aggregate counts
   * its committed saves, the stored aggregate is the last one committed, and
   * the commits replaced each other's versions in order.
   */
  lemma CommitsAreVersions(mapping: Event -> Option<Message>, acts: seq<Action>, id: Id)
    ensures var w := RunFrom(mapping, EMPTY, acts);
            && VersionOf(w.aggregates, id) == CommitCount(w.log, id)
            && (if id in w.aggregates then Some(w.aggregates[id]) else None) == LastCommitted(w.log, id)
            && VersionOrder(w.log)
  {
    RunKeepsInv(mapping, EMPTY, acts);
  }

  // ---------------------------------------------------------------- the outbox, aggregate by aggregate

  /** The outbox rows that speak for one aggregate. */
  function RowsOf(outbox: seq<Queued>, id: Id): seq<Queued> {
    if outbox == [] then []
    else
      var n := |outbox| - 1;
      RowsOf(outbox[..n], id) + (if outbox[n].id == id then [outbox[n]] else [])
  }

  lemma {:induction false} RowsOfAppend(xs: seq<Queued>, ys: seq<Queued>, id: Id)
    ensures RowsOf(xs + ys, id) == RowsOf(xs, id) + RowsOf(ys, id)
  {
    if ys == [] {
      assert xs + ys == xs;
    } else {
      RowsOfAppend(xs, ys[..|ys| - 1], id);
      assert (xs + ys)[..|xs + ys| - 1] == xs + ys[..|ys| - 1];
    }
  }

  lemma {:induction false} RowsOfBatch(mapping: Event -> Option<Message>, id: Id, events: seq<Event>, jd: Id)
    requires MapAll(mapping, id, events).Some?
    ensures RowsOf(MapAll(mapping, id, events).value, jd) == if jd == id then MapAll(mapping, id, events).value else []
  {
    if events != [] {
      var front := MapAll(mapping, id, events[..|events| - 1]);
      RowsOfBatch(mapping, id, events[..|events| - 1], jd);
      assert MapAll(mapping, id, events).value[..|front.value|] == front.value;
    }
  }

  /** The events of the commit that replaced version `v`. */
  function EventsAt(log: seq<Commit>, id: Id, v: nat): seq<Event> {
    if log == [] then []
    else
      var n := |log| - 1;
      if log[n].id == id && log[n].base == v then log[n].events else EventsAt(log[..n], id, v)
  }

  /** Reference: the messages of an aggregate's commits, from version 0 up to version `v`. */
  function MessagesUpTo(mapping: Event -> Option<Message>, log: seq<Commit>, id: Id, v: nat): seq<Queued> {
    if v == 0 then []
    else
      var batch := MapAll(mapping, id, EventsAt(log, id, v - 1));
      MessagesUpTo(mapping, log, id, v - 1) + (if batch.Some? then batch.value else [])
  }

  lemma EventsAfter(log: seq<Commit>, c: Commit, id: Id, v: nat)
    ensures EventsAt(log + [c], id, v) == if c.id == id && c.base == v then c.events else EventsAt(log, id, v)
  {
    assert (log + [c])[..|log|] == log;
  }

  lemma {:induction false} LaterCommitsDoNotMatter(mapping: Event -> Option<Message>, log: seq<Commit>, c: Commit, id: Id, v: nat)
    requires c.id == id ==> v <= c.base
    ensures MessagesUpTo(mapping, log + [c], id, v) == MessagesUpTo(mapping, log, id, v)
  {
    if v > 0 {
      LaterCommitsDoNotMatter(mapping, log, c, id, v - 1);
      EventsAfter(log, c, id, v - 1);
    }
  }

  /** The rows of an aggregate before and after one more commit, of it or of another. */
  lemma OneMoreCommitsRows(mapping: Event -> Option<Message>, init: seq<Commit>, c: Commit, id: Id)
    requires MapAll(mapping, c.id, c.events).Some?
    ensures RowsOf(AllMessages(mapping, init + [c]), id)
         == RowsOf(AllMessages(mapping, init), id) + (if c.id == id then MapAll(mapping, c.id, c.events).value else [])
  {
    var messages := MapAll(mapping, c.id, c.events).value;
    assert (init + [c])[..|init|] == init;
    assert AllMessages(mapping, init + [c]) == AllMessages(mapping, init) + messages;
    RowsOfAppend(AllMessages(mapping, init), messages, id);
    RowsOfBatch(mapping, c.id, c.events, id);
  }

  /** The same for the version-ordered reference. */
  lemma OneMoreVersion(mapping: Event -> Option<Message>, init: seq<Commit>, c: Commit, id: Id)
    requires MapAll(mapping, c.id, c.events).Some? && c.base == CommitCount(init, c.id)
    ensures MessagesUpTo(mapping, init + [c], id, CommitCount(init + [c], id))
         == MessagesUpTo(mapping, init, id, CommitCount(init, id)) + (if c.id == id then MapAll(mapping, c.id, c.events).value else [])
  {
    CountsAfter(init, c, id);
    LaterCommitsDoNotMatter(mapping, init, c, id, CommitCount(init, id));
    EventsAfter(init, c, id, c.base);
  }

  /** In a history in version order, the rows of one aggregate are its batches in version order. */
  lemma {:induction false} RowsFollowVersions(mapping: Event -> Option<Message>, log: seq<Commit>, id: Id)
    requires VersionOrder(log) && AllMapped(mapping, log)
    ensures RowsOf(AllMessages(mapping, log), id) == MessagesUpTo(mapping, log, id, CommitCount(log, id))
  {
    if log != [] {
      var n := |log| - 1;
      var init, c := log[..n], log[n];
      assert log == init + [c] && MapAll(mapping, c.id, c.events).Some?;
      PrefixInVersionOrder(log, n);
      PrefixIsMapped(mapping, log, n);
      RowsFollowVersions(mapping, init, id);
      OneMoreCommitsRows(mapping, init, c, id);
      OneMoreVersion(mapping, init, c, id);
    }
  }

  lemma RowsOfPrefix(xs: seq<Queued>, ys: seq<Queued>, id: Id)
    requires xs <= ys
    ensures RowsOf(xs, id) <= RowsOf(ys, id)
  {
    assert ys == xs + ys[|xs|..];
    RowsOfAppend(xs, ys[|xs|..], id);
  }

  /** Between commits the outbox is all committed batches; during one, its last batch is a prefix. */
  lemma OutboxIsAPrefix(mapping: Event -> Option<Message>, w: World)
    requires Inv(mapping, w)
    ensures w.outbox <= AllMessages(mapping, w.log)
    ensures w.lock.None? ==> w.outbox == AllMessages(mapping, w.log)
  {
    if Holder(w).Committing? {
      assert ProcOk(mapping, w.aggregates, w.log, w.lock, w.lock.value, w.procs[w.lock.value]);
      assert AllMessages(mapping, w.log) == AllMessages(mapping, w.log[..|w.log| - 1]) + Holder(w).messages;
    }
  }

  /**
   * The outbox holds the messages of the committed batches, batch after batch,
   * and every committed batch maps in full; a commit in progress has contributed
   * a prefix of its own. So the rows of one aggregate are its batches in version
   * order, up to the stored version.
   */
  lemma OutboxIsTheCommittedBatches(mapping: Event -> Option<Message>, acts: seq<Action>, id: Id)
    ensures var w := RunFrom(mapping, EMPTY, acts);
            && AllMapped(mapping, w.log)
            && w.outbox <= AllMessages(mapping, w.log)
            && RowsOf(w.outbox, id) <= MessagesUpTo(mapping, w.log, id, VersionOf(w.aggregates, id))
            && (w.lock.None? ==>
                  && w.outbox == AllMessages(mapping, w.log)
                  && RowsOf(w.outbox, id) == MessagesUpTo(mapping, w.log, id, VersionOf(w.aggregates, id)))
  {
    var w := RunFrom(mapping, EMPTY, acts);
    RunKeepsInv(mapping, EMPTY, acts);
    OutboxIsAPrefix(mapping, w);
    RowsOfPrefix(w.outbox, AllMessages(mapping, w.log), id);
    RowsFollowVersions(mapping, w.log, id);
  }
}
