/**
 * What a `save_and_enqueue_in` call achieves from any reachable state when
 * nobody holds the mutex and nobody runs in between: it fails without a trace
 * or stores the aggregate and one message per event.
 */
module UnitOfWorkEffects {
  import opened Common
  import opened UnitOfWork
  import opened UnitOfWorkProtocol
  import opened UnitOfWorkCalls

  lemma OneMore(mapping: Event -> Option<Message>, w: World, acts: seq<Action>, a: Action)
    ensures RunFrom(mapping, w, acts + [a]) == Next(mapping, RunFrom(mapping, w, acts), a)
  {
    assert (acts + [a])[..|acts|] == acts;
  }

  lemma OneFirst(mapping: Event -> Option<Message>, w: World, a: Action, acts: seq<Action>)
    ensures RunFrom(mapping, w, [a] + acts) == RunFrom(mapping, Next(mapping, w, a), acts)
  {
    RunsCompose(mapping, w, [a], acts);
    assert [a][..0] == [];
  }

  function With(w: World, p: nat, proc: Proc, lock: Option<nat>): World {
    w.(procs := w.procs[p := proc], lock := lock)
  }

  /** Up to the version check, which a current aggregate passes. */
  lemma UpToStaged(mapping: Event -> Option<Message>, w: World, p: nat, messages: seq<Queued>) returns (acts: seq<Action>)
    requires p in w.procs && w.procs[p].stage.Idle? && w.lock.None?
    requires MapAll(mapping, w.procs[p].agg.id, w.procs[p].agg.pending) == Some(messages)
    ensures acts != [] && acts[0] == Call(p)
    ensures var agg := w.procs[p].agg;
            RunFrom(mapping, w, acts)
            == if (if agg.id in w.aggregates then w.aggregates[agg.id].version else 0) == agg.version
               then With(w, p, Proc(agg.(version := agg.version + 1),
                                    Staged(messages, Tx(Some(agg.(version := agg.version + 1, pending := [])), []))), Some(p))
               else w
  {
    var agg := w.procs[p].agg;
    var mapped, inTx := Proc(agg, Mapped(messages)), Proc(agg, InTx(messages));
    var w1 := Next(mapping, w, Call(p));
    assert w1 == w.(procs := w.procs[p := mapped]);
    var w2 := Next(mapping, w1, Begin(p));
    assert w2 == With(w, p, inTx, Some(p)) by {
      assert w.procs[p := mapped][p := inTx] == w.procs[p := inTx];
    }
    acts := [Call(p)] + [Begin(p)] + [SaveInTx(p)];
    assert [Call(p)][..0] == [];
    OneMore(mapping, w, [Call(p)], Begin(p));
    OneMore(mapping, w, [Call(p)] + [Begin(p)], SaveInTx(p));
    CheckAlone(mapping, w, p, messages);
  }

  lemma CheckAlone(mapping: Event -> Option<Message>, w: World, p: nat, messages: seq<Queued>)
    requires p in w.procs && w.procs[p].stage.Idle? && w.lock.None?
    ensures var agg := w.procs[p].agg;
            Next(mapping, With(w, p, Proc(agg, InTx(messages)), Some(p)), SaveInTx(p))
            == if (if agg.id in w.aggregates then w.aggregates[agg.id].version else 0) == agg.version
               then With(w, p, Proc(agg.(version := agg.version + 1),
                                    Staged(messages, Tx(Some(agg.(version := agg.version + 1, pending := [])), []))), Some(p))
               else w
  {
    var agg := w.procs[p].agg;
    var inTx := Proc(agg, InTx(messages));
    var staged := Proc(agg.(version := agg.version + 1), Staged(messages, Tx(Some(Saved(agg)), [])));
    assert w.procs[p := inTx][p := staged] == w.procs[p := staged];
    assert w.procs[p := inTx][p := Proc(agg, Idle)] == w.procs;
  }

  /** Staging the messages one after the other. */
  lemma {:induction false} StageAll(mapping: Event -> Option<Message>, w: World, p: nat) returns (acts: seq<Action>)
    requires p in w.procs && w.procs[p].stage.Staged? && w.procs[p].stage.tx.outbox <= w.procs[p].stage.messages
    ensures var proc := w.procs[p];
            RunFrom(mapping, w, acts)
            == w.(procs := w.procs[p := proc.(stage := proc.stage.(tx := proc.stage.tx.(outbox := proc.stage.messages)))])
    decreases |w.procs[p].stage.messages| - |w.procs[p].stage.tx.outbox|
  {
    var proc := w.procs[p];
    var stage := proc.stage;
    if stage.tx.outbox == stage.messages {
      acts := [];
      assert w.procs[p := proc] == w.procs;
    } else {
      var n := |stage.tx.outbox|;
      var w1 := Next(mapping, w, InsertInTx(p));
      assert stage.tx.outbox + [stage.messages[n]] == stage.messages[..n + 1];
      acts := StageAll(mapping, w1, p);
      OneFirst(mapping, w, InsertInTx(p), acts);
      acts := [InsertInTx(p)] + acts;
      var full := proc.(stage := stage.(tx := stage.tx.(outbox := stage.messages)));
      assert w1.procs[p := full] == w.procs[p := full];
    }
  }

  /** Flushing the rest of a commit and finishing it. */
  lemma {:induction false} FlushAll(mapping: Event -> Option<Message>, w: World, p: nat) returns (acts: seq<Action>)
    requires p in w.procs && w.procs[p].stage.Committing? && w.procs[p].stage.next <= |w.procs[p].stage.messages|
    ensures var stage := w.procs[p].stage;
            RunFrom(mapping, w, acts)
            == With(w, p, Proc(w.procs[p].agg.(pending := []), Idle), None).(outbox := w.outbox + stage.messages[stage.next..])
    decreases |w.procs[p].stage.messages| - w.procs[p].stage.next
  {
    var stage := w.procs[p].stage;
    if stage.next == |stage.messages| {
      acts := [Finish(p)];
      assert acts[..0] == [];
      assert w.outbox + stage.messages[stage.next..] == w.outbox;
    } else {
      var w1 := Next(mapping, w, Flush(p));
      acts := FlushAll(mapping, w1, p);
      OneFirst(mapping, w, Flush(p), acts);
      acts := [Flush(p)] + acts;
      assert stage.messages[stage.next..] == [stage.messages[stage.next]] + stage.messages[stage.next + 1..];
      var idle := Proc(w.procs[p].agg.(pending := []), Idle);
      assert w1.procs[p := idle] == w.procs[p := idle];
    }
  }

  /** A call that went through: the aggregate one version on, and one message per event, in order. */
  ghost predicate Stored(mapping: Event -> Option<Message>, w: World, p: nat, w': World)
    requires p in w.procs
  {
    var agg := w.procs[p].agg;
    var after := Aggregate(agg.id, agg.state, agg.version + 1, []);
    && w'.aggregates == w.aggregates[agg.id := after]
    && |w'.outbox| == |w.outbox| + |agg.pending| && w'.outbox[..|w.outbox|] == w.outbox
    && (forall i :: 0 <= i < |agg.pending| ==>
          mapping(agg.pending[i]).Some? && w'.outbox[|w.outbox| + i] == Queued(agg.id, mapping(agg.pending[i]).value))
    && w'.procs == w.procs[p := Proc(after, Idle)] && w'.lock.None?
  }

  /** The aggregate is visible and nothing is flushed yet. */
  ghost predicate Visible(w: World, p: nat, messages: seq<Queued>, committing: World)
    requires p in w.procs
  {
    var agg := w.procs[p].agg;
    && committing.aggregates == w.aggregates[agg.id := Aggregate(agg.id, agg.state, agg.version + 1, [])]
    && committing.outbox == w.outbox
    && committing.procs == w.procs[p := Proc(agg.(version := agg.version + 1), Committing(messages, 0))]
  }

  lemma CommitOfStaged(mapping: Event -> Option<Message>, w: World, full: World, p: nat, messages: seq<Queued>)
    requires p in w.procs
    requires var agg := w.procs[p].agg;
             && full.aggregates == w.aggregates && full.outbox == w.outbox && p in full.procs && full.procs - {p} == w.procs - {p}
             && full.procs[p] == Proc(agg.(version := agg.version + 1), Staged(messages, Tx(Some(Saved(agg)), messages)))
    ensures Visible(w, p, messages, Next(mapping, full, CommitTx(p)))
  {
    var committing := Proc(w.procs[p].agg.(version := w.procs[p].agg.version + 1), Committing(messages, 0));
    assert full.procs[p := committing] == (full.procs - {p})[p := committing];
    assert w.procs[p := committing] == (w.procs - {p})[p := committing];
  }

  lemma FlushedIsStored(mapping: Event -> Option<Message>, w: World, committing: World, p: nat, messages: seq<Queued>, w': World)
    requires p in w.procs && Visible(w, p, messages, committing)
    requires MapAll(mapping, w.procs[p].agg.id, w.procs[p].agg.pending) == Some(messages)
    requires w' == With(committing, p, Proc(committing.procs[p].agg.(pending := []), Idle), None).(outbox := committing.outbox + messages[0..])
    ensures Stored(mapping, w, p, w')
  {
    var agg := w.procs[p].agg;
    MapsEachEventOnce(mapping, agg.id, agg.pending);
    assert messages[0..] == messages;
    var done := Proc(Aggregate(agg.id, agg.state, agg.version + 1, []), Idle);
    assert committing.procs[p := done] == w.procs[p := done];
  }

  lemma CommitAlone(mapping: Event -> Option<Message>, w: World, staged: World, p: nat, messages: seq<Queued>) returns (acts: seq<Action>)
    requires p in w.procs && w.procs[p].stage.Idle? && w.lock.None?
    requires MapAll(mapping, w.procs[p].agg.id, w.procs[p].agg.pending) == Some(messages)
    requires var agg := w.procs[p].agg;
             staged == With(w, p, Proc(agg.(version := agg.version + 1), Staged(messages, Tx(Some(Saved(agg)), []))), Some(p))
    ensures Stored(mapping, w, p, RunFrom(mapping, staged, acts))
  {
    acts := StageAll(mapping, staged, p);
    CommitOfStaged(mapping, w, RunFrom(mapping, staged, acts), p, messages);
    OneMore(mapping, staged, acts, CommitTx(p));
    acts := acts + [CommitTx(p)];
    var committing := RunFrom(mapping, staged, acts);
    var flushes := FlushAll(mapping, committing, p);
    RunsCompose(mapping, staged, acts, flushes);
    acts := acts + flushes;
    FlushedIsStored(mapping, w, committing, p, messages, RunFrom(mapping, committing, flushes));
  }

  /** Every pending event maps, and the stored version is the one held. */
  ghost predicate GoesThrough(mapping: Event -> Option<Message>, w: World, agg: Aggregate) {
    && (forall i :: 0 <= i < |agg.pending| ==> mapping(agg.pending[i]).Some?)
    && (if agg.id in w.aggregates then w.aggregates[agg.id].version else 0) == agg.version
  }

  lemma CallFrom(mapping: Event -> Option<Message>, w: World, p: nat) returns (acts: seq<Action>)
    requires p in w.procs && w.procs[p].stage.Idle? && w.lock.None?
    ensures acts != [] && acts[0] == Call(p)
    ensures if GoesThrough(mapping, w, w.procs[p].agg) then Stored(mapping, w, p, RunFrom(mapping, w, acts))
            else RunFrom(mapping, w, acts) == w
  {
    var agg := w.procs[p].agg;
    MapsEachEventOnce(mapping, agg.id, agg.pending);
    if MapAll(mapping, agg.id, agg.pending).None? {
      acts := [Call(p)];
      assert acts[..0] == [];
    } else {
      var messages := MapAll(mapping, agg.id, agg.pending).value;
      acts := UpToStaged(mapping, w, p, messages);
      if GoesThrough(mapping, w, agg) {
        var rest := CommitAlone(mapping, w, RunFrom(mapping, w, acts), p, messages);
        RunsCompose(mapping, w, acts, rest);
        acts := acts + rest;
      }
    }
  }

  /**
   * From any reachable state in which the mutex is free: if every pending event
   * maps and the stored version is the one the process holds, its call stores
   * the aggregate and its messages; otherwise it changes nothing at all.
   */
  lemma CallTakesEffect(mapping: Event -> Option<Message>, acts: seq<Action>, p: nat) returns (more: seq<Action>)
    requires var w := RunFrom(mapping, EMPTY, acts); p in w.procs && w.procs[p].stage.Idle? && w.lock.None?
    ensures more != [] && more[0] == Call(p)
    ensures var w, w' := RunFrom(mapping, EMPTY, acts), RunFrom(mapping, EMPTY, acts + more);
            if GoesThrough(mapping, w, w.procs[p].agg) then Stored(mapping, w, p, w') else w' == w
  {
    more := CallFrom(mapping, RunFrom(mapping, EMPTY, acts), p);
    RunsCompose(mapping, EMPTY, acts, more);
  }

  /** What a process starts from: a new aggregate at version 0, or the stored one; and what it adds to it. */
  lemma AggregatesAreHeldAsStored(mapping: Event -> Option<Message>, w: World, p: nat, id: Id, state: State, events: seq<Event>)
    ensures p !in w.procs ==>
              Next(mapping, w, Create(p, id, state)) == w.(procs := w.procs[p := Proc(Aggregate(id, state, 0, []), Idle)])
    ensures p !in w.procs && id in w.aggregates ==>
              Next(mapping, w, Find(p, id)) == w.(procs := w.procs[p := Proc(w.aggregates[id], Idle)])
    ensures p in w.procs && w.procs[p].stage.Idle? ==>
              var agg := w.procs[p].agg;
              Next(mapping, w, Mutate(p, state, events))
              == w.(procs := w.procs[p := Proc(Aggregate(agg.id, state, agg.version, agg.pending + events), Idle)])
  {
  }
}
