/**
 * What the operations of `SagaProtocol` achieve when nobody runs in between,
 * from any reachable state, written out row by row; and where the transitions
 * of the history come from.
 */
module SagaEffects {
  import opened Common
  import opened SagaStore
  import opened Sorting
  import opened SagaProtocol

  // ---------------------------------------------------------------- queueing a batch

  function Tagged(ticket: nat, commands: seq<Command>): seq<Queued> {
    seq(|commands|, i requires 0 <= i < |commands| => Queued(ticket, commands[i]))
  }

  lemma OneMore(w: World, acts: seq<Action>, a: Action)
    ensures RunFrom(w, acts + [a]) == Next(RunFrom(w, acts), a)
  {
    assert (acts + [a])[..|acts|] == acts;
  }

  lemma OneStep(w: World, a: Action)
    ensures RunFrom(w, [a]) == Next(w, a)
  {
    assert [a][..0] == [];
  }

  lemma OneFirst(w: World, a: Action, acts: seq<Action>)
    ensures RunFrom(w, [a] + acts) == RunFrom(Next(w, a), acts)
  {
    OneStep(w, a);
    RunsCompose(w, [a], acts);
  }

  /** The world after process `p` has queued the rest of its batch. */
  function Queueing(w: World, p: nat): World
    requires p in w.procs && w.procs[p].Enqueueing? && w.procs[p].ticket < |w.log|
    requires w.procs[p].next <= |w.log[w.procs[p].ticket].commands|
  {
    var pc := w.procs[p];
    Resume(w.(outbox := w.outbox + Tagged(pc.ticket, w.log[pc.ticket].commands[pc.next..])), p, pc.call)
  }

  lemma OneInsert(w: World, p: nat)
    requires p in w.procs && w.procs[p].Enqueueing? && w.procs[p].ticket < |w.log|
    requires w.procs[p].next < |w.log[w.procs[p].ticket].commands|
    ensures var w' := Next(w, Insert(p));
            && p in w'.procs && w'.procs[p] == w.procs[p].(next := w.procs[p].next + 1) && w'.log == w.log
            && Queueing(w', p) == Queueing(w, p)
  {
    var pc, w' := w.procs[p], Next(w, Insert(p));
    var commands := w.log[pc.ticket].commands;
    assert commands[pc.next..] == [commands[pc.next]] + commands[pc.next + 1..];
    assert Tagged(pc.ticket, commands[pc.next..]) == [Queued(pc.ticket, commands[pc.next])] + Tagged(pc.ticket, commands[pc.next + 1..]);
    assert w'.procs - {p} == w.procs - {p};
    assert pc.call.SweepCall? ==> w'.procs[p := Firing(pc.call.rest)] == w.procs[p := Firing(pc.call.rest)];
  }

  /** Inserting to the end of the batch queues its commands, in order and under its ticket. */
  lemma {:induction false} BatchIsQueued(w: World, p: nat) returns (inserts: seq<Action>)
    requires p in w.procs && w.procs[p].Enqueueing? && w.procs[p].ticket < |w.log|
    requires w.procs[p].next <= |w.log[w.procs[p].ticket].commands|
    ensures RunFrom(w, inserts) == Queueing(w, p)
    decreases |w.log[w.procs[p].ticket].commands| - w.procs[p].next
  {
    var pc := w.procs[p];
    if pc.next == |w.log[pc.ticket].commands| {
      OneStep(w, Insert(p));
      inserts := [Insert(p)];
      assert w.outbox + Tagged(pc.ticket, []) == w.outbox;
    } else {
      OneInsert(w, p);
      inserts := BatchIsQueued(Next(w, Insert(p)), p);
      OneFirst(w, Insert(p), inserts);
      inserts := [Insert(p)] + inserts;
    }
  }

  // ---------------------------------------------------------------- one event

  /** The row a transition leaves behind, field by field. */
  ghost predicate LeavesRow(id: Id, before: Option<Instance>, t: Transition, after: Option<Instance>) {
    var version := if before.Some? then before.value.version + 1 else 1;
    match t
    case Ignore => after == before
    case Start(s, _, d) => after == Some(Instance(id, s, Running, d, version))
    case Advance(s, _, d) => after == Some(Instance(id, s, Running, d, version))
    case Complete(s, _) => after == Some(Instance(id, s, Completed, None, version))
    case Fail(_) => after == if before.Some? then Some(Instance(id, before.value.state, Failed, None, version)) else None
  }

  lemma SaveAlone(w: World, p: nat)
    requires Inv(w) && Unlocked(w) && p in w.procs && w.procs[p].Saving? && w.procs[p].deed.Applied?
    requires VersionOf(Row(w.rows, w.procs[p].id)) == VersionOf(w.procs[p].base) && !Restarts(w.procs[p])
    ensures var pc, w' := w.procs[p], Next(w, Save(p));
            && LeavesRow(pc.id, Row(w.rows, pc.id), pc.deed.transition, Row(w'.rows, pc.id))
            && OthersUnchanged(w.rows, w'.rows, pc.id)
            && |w'.log| == |w.log| + 1 && w'.log[|w.log|].commands == pc.deed.transition.commands
            && w'.outbox == w.outbox && w'.procs == w.procs[p := Enqueueing(|w.log|, 0, pc.call)]
  {
    var pc := w.procs[p];
    assert PcOk(w.rows, pc);
    ProposalVersion(w.rows, pc);
  }

  function UpToReact(p: nat, id: Id, r: Reaction): seq<Action> {
    [Handle(p, id)] + [Load(p)] + [React(p, r)]
  }

  lemma LoadAlone(w: World, p: nat, id: Id)
    requires p !in w.procs
    ensures RunFrom(w, [Handle(p, id)] + [Load(p)]) == Goto(w, p, Reacting(id, Row(w.rows, id), [], |w.log|))
  {
    OneStep(w, Handle(p, id));
    OneMore(w, [Handle(p, id)], Load(p));
    var pc := Reacting(id, Row(w.rows, id), [], |w.log|);
    assert w.procs[p := Loading(id, [])][p := pc] == w.procs[p := pc];
  }

  /** After load and reaction, the call has stopped, has a batch to queue, or is about to save what the saga answered. */
  lemma ReactAlone(w: World, p: nat, id: Id, r: Reaction)
    requires p !in w.procs
    ensures var current, w' := Row(w.rows, id), RunFrom(w, UpToReact(p, id, r));
            if r.Errs? || r.transition.Ignore? || (current.Some? && current.value.status != Running) then w' == w
            else if r.transition.Fail? && current.None? then
              && w'.rows == w.rows && w'.outbox == w.outbox
              && |w'.log| == |w.log| + 1 && w'.log[|w.log|].commands == r.transition.commands
              && w'.procs == w.procs[p := Enqueueing(|w.log|, 0, EventCall([], |w.log|))]
            else w' == Goto(w, p, Saving(id, current, Applied(r.transition), EventCall([], |w.log|)))
  {
    LoadAlone(w, p, id);
    OneMore(w, [Handle(p, id)] + [Load(p)], React(p, r));
    var loaded := RunFrom(w, [Handle(p, id)] + [Load(p)]);
    assert loaded.procs - {p} == w.procs;
    var enqueueing, saving := Enqueueing(|w.log|, 0, EventCall([], |w.log|)), Saving(id, Row(w.rows, id), if r.Yields? then Applied(r.transition) else DeadlineCleared, EventCall([], |w.log|));
    assert loaded.procs[p := enqueueing] == w.procs[p := enqueueing];
    assert loaded.procs[p := saving] == w.procs[p := saving];
  }

  /**
   * An uninterrupted `handle` does what the saga answered: a running or absent
   * saga gets the row its transition describes and exactly its commands are
   * queued, in order; nothing else changes.
   */
  ghost predicate Handled(w: World, id: Id, t: Transition, w': World)
    requires !t.Ignore?
  {
    && LeavesRow(id, Row(w.rows, id), t, Row(w'.rows, id))
    && OthersUnchanged(w.rows, w'.rows, id)
    && w'.outbox == w.outbox + Tagged(|w.log|, t.commands)
    && w'.procs == w.procs
  }

  predicate MayHandle(w: World, p: nat, id: Id, t: Transition) {
    && p !in w.procs && !t.Ignore?
    && (id in w.rows ==> w.rows[id].status == Running && !t.Start?)
  }

  lemma SaveOfTheAnswer(w: World, saving: World, p: nat, id: Id, t: Transition)
    requires Inv(saving) && Unlocked(w) && MayHandle(w, p, id, t)
    requires saving == Goto(w, p, Saving(id, Row(w.rows, id), Applied(t), EventCall([], |w.log|)))
    ensures var w' := Next(saving, Save(p));
            && LeavesRow(id, Row(w.rows, id), t, Row(w'.rows, id)) && OthersUnchanged(w.rows, w'.rows, id)
            && |w'.log| == |w.log| + 1 && w'.log[|w.log|].commands == t.commands && w'.outbox == w.outbox
            && w'.procs == w.procs[p := Enqueueing(|w.log|, 0, EventCall([], |w.log|))]
  {
    SaveAlone(saving, p);
    var enqueueing := Enqueueing(|w.log|, 0, EventCall([], |w.log|));
    assert saving.procs[p := enqueueing] == w.procs[p := enqueueing];
  }

  /** Up to the point where the batch is to be queued. */
  lemma UpToBatch(w: World, p: nat, id: Id, t: Transition) returns (acts: seq<Action>)
    requires Inv(w) && Unlocked(w) && MayHandle(w, p, id, t)
    ensures var w' := RunFrom(w, acts);
            && LeavesRow(id, Row(w.rows, id), t, Row(w'.rows, id)) && OthersUnchanged(w.rows, w'.rows, id)
            && |w'.log| == |w.log| + 1 && w'.log[|w.log|].commands == t.commands && w'.outbox == w.outbox
            && w'.procs == w.procs[p := Enqueueing(|w.log|, 0, EventCall([], |w.log|))]
  {
    acts := UpToReact(p, id, Yields(t));
    ReactAlone(w, p, id, Yields(t));
    if !(t.Fail? && id !in w.rows) {
      RunKeepsInv(w, acts);
      SaveOfTheAnswer(w, RunFrom(w, acts), p, id, t);
      OneMore(w, acts, Save(p));
      acts := acts + [Save(p)];
    }
  }

  lemma HandleFrom(w: World, p: nat, id: Id, t: Transition) returns (acts: seq<Action>)
    requires Inv(w) && Unlocked(w) && MayHandle(w, p, id, t)
    ensures Handled(w, id, t, RunFrom(w, acts))
  {
    acts := UpToBatch(w, p, id, t);
    var enqueueing := RunFrom(w, acts);
    var inserts := BatchIsQueued(enqueueing, p);
    RunsCompose(w, acts, inserts);
    acts := acts + inserts;
    assert t.commands[0..] == t.commands;
    assert enqueueing.procs - {p} == w.procs;
  }

  lemma HandleTakesEffect(acts: seq<Action>, p: nat, id: Id, t: Transition) returns (more: seq<Action>)
    requires Unlocked(RunFrom(EMPTY, acts)) && MayHandle(RunFrom(EMPTY, acts), p, id, t)
    ensures Handled(RunFrom(EMPTY, acts), id, t, RunFrom(EMPTY, acts + more))
  {
    RunKeepsInv(EMPTY, acts);
    more := HandleFrom(RunFrom(EMPTY, acts), p, id, t);
    RunsCompose(EMPTY, acts, more);
  }

  /** And it does nothing at all when the saga errs or ignores the event, or has already ended. */
  lemma HandleHasNoEffect(acts: seq<Action>, p: nat, id: Id, r: Reaction)
    requires var w := RunFrom(EMPTY, acts);
             && p !in w.procs
             && (r.Errs? || r.transition.Ignore? || (id in w.rows && w.rows[id].status != Running))
    ensures RunFrom(EMPTY, acts + UpToReact(p, id, r)) == RunFrom(EMPTY, acts)
  {
    ReactAlone(RunFrom(EMPTY, acts), p, id, r);
    RunsCompose(EMPTY, acts, UpToReact(p, id, r));
  }

  // ---------------------------------------------------------------- one sweep

  /** What is left of a claim pass, done at once as the store's `claim_due` does it. */
  ghost predicate ClaimedTheRest(w: World, p: nat, w': World)
    requires p in w.procs && w.procs[p].Claiming?
  {
    var pc := w.procs[p];
    && (forall id :: id in pc.rest ==> id in w.rows)
    && w'.rows == RowsAfterClaims(w.rows, pc.rest, pc.now + pc.lease)
    && w'.procs == w.procs[p := Firing(pc.claimed + ClaimedCopies(w.rows, pc.rest))]
    && w'.outbox == w.outbox
  }

  lemma FirstRowOfThePass(rows: Rows, rest: seq<Id>, now: int, until: int)
    requires Claimable(rows, rest, now) && rest != []
    ensures var rows' := rows[rest[0] := ClaimedRow(rows[rest[0]], until)];
            && Claimable(rows', rest[1..], now)
            && (forall id :: id in rest ==> id in rows)
            && RowsAfterClaims(rows', rest[1..], until) == RowsAfterClaims(rows, rest, until)
            && ClaimedCopies(rows, rest) == [rows[rest[0]].(version := rows[rest[0]].version + 1)] + ClaimedCopies(rows', rest[1..])
  {
    assert rest == [rest[0]] + rest[1..];
    assert rest[0] !in rest[1..];
    assert forall i :: 0 <= i < |rest| - 1 ==> rest[1..][i] == rest[i + 1];
  }

  lemma OneClaim(w: World, p: nat)
    requires p in w.procs && w.procs[p].Claiming? && w.procs[p].rest != [] && w.procs[p].rest[0] in w.rows
    ensures var pc, id, w' := w.procs[p], w.procs[p].rest[0], Next(w, ClaimRow(p));
            && w'.rows == w.rows[id := ClaimedRow(w.rows[id], pc.now + pc.lease)] && w'.outbox == w.outbox
            && w'.procs == w.procs[p := Claiming(pc.now, pc.lease, pc.rest[1..], pc.claimed + [w.rows[id].(version := w.rows[id].version + 1)])]
  {
  }

  lemma FirstThenTheRest(w: World, p: nat, w1: World, w': World)
    requires p in w.procs && w.procs[p].Claiming? && w.procs[p].rest != [] && Claimable(w.rows, w.procs[p].rest, w.procs[p].now)
    requires var pc, id := w.procs[p], w.procs[p].rest[0];
             && w1.rows == w.rows[id := ClaimedRow(w.rows[id], pc.now + pc.lease)] && w1.outbox == w.outbox
             && w1.procs == w.procs[p := Claiming(pc.now, pc.lease, pc.rest[1..], pc.claimed + [w.rows[id].(version := w.rows[id].version + 1)])]
    requires ClaimedTheRest(w1, p, w')
    ensures ClaimedTheRest(w, p, w')
  {
    var pc, pc1 := w.procs[p], w1.procs[p];
    FirstRowOfThePass(w.rows, pc.rest, pc.now, pc.now + pc.lease);
    var fired := Firing(pc.claimed + ClaimedCopies(w.rows, pc.rest));
    assert pc1.claimed + ClaimedCopies(w1.rows, pc1.rest) == fired.due;
    assert w1.procs[p := fired] == w.procs[p := fired];
  }

  /** The claim pass, row by row under the mutex, claims exactly what the store's `claim_due` does. */
  lemma {:induction false} ClaimPass(w: World, p: nat) returns (acts: seq<Action>)
    requires p in w.procs && w.procs[p].Claiming? && Claimable(w.rows, w.procs[p].rest, w.procs[p].now)
    ensures ClaimedTheRest(w, p, RunFrom(w, acts))
    decreases |w.procs[p].rest|
  {
    var pc := w.procs[p];
    if pc.rest == [] {
      OneStep(w, ClaimRow(p));
      acts := [ClaimRow(p)];
      assert RowsAfterClaims(w.rows, [], pc.now + pc.lease) == w.rows;
      assert pc.claimed + ClaimedCopies(w.rows, []) == pc.claimed;
    } else {
      var w1 := Next(w, ClaimRow(p));
      OneClaim(w, p);
      FirstRowOfThePass(w.rows, pc.rest, pc.now, pc.now + pc.lease);
      acts := ClaimPass(w1, p);
      FirstThenTheRest(w, p, w1, RunFrom(w1, acts));
      OneFirst(w, ClaimRow(p), acts);
      acts := [ClaimRow(p)] + acts;
    }
  }

  lemma SweepSelects(w: World, a: Action)
    requires CanSweep(w, a)
    ensures Next(w, a) == Goto(w, a.p, Claiming(a.now, a.lease, a.picked, []))
  {
  }

  lemma ClaimedFromTheStart(w: World, p: nat, w1: World, w': World)
    requires p in w1.procs && w1.procs[p].Claiming? && w1.procs[p].claimed == [] && w1 == Goto(w, p, w1.procs[p])
    requires ClaimedTheRest(w1, p, w')
    ensures var pc := w1.procs[p];
            && (forall id :: id in pc.rest ==> id in w.rows)
            && w'.rows == RowsAfterClaims(w.rows, pc.rest, pc.now + pc.lease)
            && w'.procs == w.procs[p := Firing(ClaimedCopies(w.rows, pc.rest))]
            && w'.outbox == w.outbox
  {
    var copies := ClaimedCopies(w.rows, w1.procs[p].rest);
    assert [] + copies == copies;
    assert w1.procs[p := Firing(copies)] == w.procs[p := Firing(copies)];
  }

  lemma SweepFrom(w: World, p: nat, now: int, lease: int, limit: nat, picked: seq<Id>) returns (acts: seq<Action>)
    requires Unlocked(w) && p !in w.procs && SoonestDue(w.rows, now, limit, picked)
    ensures var w' := RunFrom(w, acts);
            && (forall id :: id in picked ==> id in w.rows)
            && w'.rows == RowsAfterClaims(w.rows, picked, now + lease)
            && w'.procs == w.procs[p := Firing(ClaimedCopies(w.rows, picked))]
            && w'.outbox == w.outbox
  {
    var a := Sweep(p, now, lease, limit, picked);
    var w1 := Goto(w, p, Claiming(now, lease, picked, []));
    SweepSelects(w, a);
    DueIsClaimable(w.rows, now, limit, picked);
    acts := ClaimPass(w1, p);
    ClaimedFromTheStart(w, p, w1, RunFrom(w1, acts));
    OneFirst(w, a, acts);
    acts := [a] + acts;
  }

  /** A whole claim of a reachable state: the soonest due are claimed and handed to the sweep. */
  lemma SweepClaims(acts: seq<Action>, p: nat, now: int, lease: int, limit: nat, picked: seq<Id>) returns (more: seq<Action>)
    requires var w := RunFrom(EMPTY, acts); Unlocked(w) && p !in w.procs && SoonestDue(w.rows, now, limit, picked)
    ensures var w, w' := RunFrom(EMPTY, acts), RunFrom(EMPTY, acts + more);
            && (forall id :: id in picked ==> id in w.rows)
            && w'.rows == RowsAfterClaims(w.rows, picked, now + lease)
            && w'.procs == w.procs[p := Firing(ClaimedCopies(w.rows, picked))]
            && w'.outbox == w.outbox
  {
    more := SweepFrom(RunFrom(EMPTY, acts), p, now, lease, limit, picked);
    RunsCompose(EMPTY, acts, more);
  }

  /** A claimed timeout fired alone leaves the row its transition describes; an ignored one only loses its deadline. */
  ghost predicate FiresRow(inst: Instance, t: Transition, after: Option<Instance>) {
    if t.Ignore? then after == Some(inst.(deadline := None, version := inst.version + 1))
    else LeavesRow(inst.id, Some(inst), t, after)
  }

  /** A claimed copy differs from its row in the deadline only, which no transition looks at. */
  lemma SameButTheDeadline(rows: Rows, inst: Instance, t: Transition, after: Option<Instance>)
    requires HeldCopy(rows, inst) && VersionOf(Row(rows, inst.id)) == inst.version
    requires LeavesRow(inst.id, Row(rows, inst.id), t, after) && !t.Ignore?
    ensures LeavesRow(inst.id, Some(inst), t, after)
  {
  }

  lemma ClearAlone(w: World, p: nat)
    requires Inv(w) && Unlocked(w) && p in w.procs && w.procs[p].Saving? && w.procs[p].deed.DeadlineCleared?
    requires VersionOf(Row(w.rows, w.procs[p].id)) == VersionOf(w.procs[p].base)
    ensures var pc, w' := w.procs[p], Next(w, Save(p));
            && pc.base.Some? && Row(w'.rows, pc.id) == Some(pc.base.value.(deadline := None, version := pc.base.value.version + 1))
            && OthersUnchanged(w.rows, w'.rows, pc.id)
            && |w'.log| == |w.log| + 1 && w'.log[|w.log|].commands == []
            && w'.outbox == w.outbox && w'.procs == w.procs[p := Enqueueing(|w.log|, 0, pc.call)]
  {
    assert PcOk(w.rows, w.procs[p]);
    ProposalVersion(w.rows, w.procs[p]);
  }

  function FiringSave(due: seq<Instance>, t: Transition): Pc
    requires due != []
  {
    Saving(due[0].id, Some(due[0]), if t.Ignore? then DeadlineCleared else Applied(t), SweepCall(due[1..]))
  }

  lemma FireAnswered(w: World, p: nat, t: Transition)
    requires p in w.procs && w.procs[p].Firing? && w.procs[p].due != []
    ensures Next(w, React(p, Yields(t))) == Goto(w, p, FiringSave(w.procs[p].due, t))
  {
  }

  lemma FiredIsSaved(w: World, saving: World, p: nat, t: Transition)
    requires Inv(w) && Inv(saving) && Unlocked(w) && p in w.procs && w.procs[p].Firing? && w.procs[p].due != [] && !t.Start?
    requires VersionOf(Row(w.rows, w.procs[p].due[0].id)) == w.procs[p].due[0].version
    requires saving == Goto(w, p, FiringSave(w.procs[p].due, t))
    ensures var due, w' := w.procs[p].due, Next(saving, Save(p));
            && FiresRow(due[0], t, Row(w'.rows, due[0].id)) && OthersUnchanged(w.rows, w'.rows, due[0].id)
            && |w'.log| == |w.log| + 1 && w'.log[|w.log|].commands == (if t.Ignore? then [] else t.commands)
            && w'.outbox == w.outbox && w'.procs == w.procs[p := Enqueueing(|w.log|, 0, SweepCall(due[1..]))]
  {
    var due := w.procs[p].due;
    assert PcOk(w.rows, w.procs[p]) && HeldCopy(w.rows, due[0]);
    if t.Ignore? {
      ClearAlone(saving, p);
    } else {
      SaveAlone(saving, p);
      SameButTheDeadline(w.rows, due[0], t, Row(Next(saving, Save(p)).rows, due[0].id));
    }
    var enqueueing := Enqueueing(|w.log|, 0, SweepCall(due[1..]));
    assert saving.procs[p := enqueueing] == w.procs[p := enqueueing];
  }

  lemma FireSaves(w: World, p: nat, t: Transition)
    requires Inv(w) && Unlocked(w) && p in w.procs && w.procs[p].Firing? && w.procs[p].due != [] && !t.Start?
    requires VersionOf(Row(w.rows, w.procs[p].due[0].id)) == w.procs[p].due[0].version
    ensures var due, w' := w.procs[p].due, Next(Next(w, React(p, Yields(t))), Save(p));
            && FiresRow(due[0], t, Row(w'.rows, due[0].id)) && OthersUnchanged(w.rows, w'.rows, due[0].id)
            && |w'.log| == |w.log| + 1 && w'.log[|w.log|].commands == (if t.Ignore? then [] else t.commands)
            && w'.outbox == w.outbox && w'.procs == w.procs[p := Enqueueing(|w.log|, 0, SweepCall(due[1..]))]
  {
    FireAnswered(w, p, t);
    StepKeepsInv(w, React(p, Yields(t)));
    FiredIsSaved(w, Next(w, React(p, Yields(t))), p, t);
  }

  lemma FireAlone(w: World, p: nat, t: Transition) returns (acts: seq<Action>)
    requires Inv(w) && Unlocked(w) && p in w.procs && w.procs[p].Firing? && w.procs[p].due != [] && !t.Start?
    requires VersionOf(Row(w.rows, w.procs[p].due[0].id)) == w.procs[p].due[0].version
    ensures var due, w' := w.procs[p].due, RunFrom(w, acts);
            && FiresRow(due[0], t, Row(w'.rows, due[0].id)) && OthersUnchanged(w.rows, w'.rows, due[0].id)
            && w'.outbox == w.outbox + Tagged(|w.log|, if t.Ignore? then [] else t.commands)
            && w'.procs == w.procs[p := Firing(due[1..])]
  {
    FireSaves(w, p, t);
    OneStep(w, React(p, Yields(t)));
    OneMore(w, [React(p, Yields(t))], Save(p));
    acts := [React(p, Yields(t))] + [Save(p)];
    var enqueueing := RunFrom(w, acts);
    var commands := enqueueing.log[|w.log|].commands;
    assert commands[0..] == commands;
    var inserts := BatchIsQueued(enqueueing, p);
    RunsCompose(w, acts, inserts);
    acts := acts + inserts;
    var fired := Firing(w.procs[p].due[1..]);
    assert enqueueing.procs[p := fired] == w.procs[p := fired];
  }

  /** A sweep ends, without a trace, when it has fired everything or `on_timeout` errs. */
  lemma SweepEnds(w: World, p: nat, r: Reaction)
    requires p in w.procs && w.procs[p].Firing? && (w.procs[p].due == [] || r.Errs?)
    ensures Next(w, React(p, r)) == w.(procs := w.procs - {p})
  {
  }

  /**
   * The timeout of a claimed copy whose row nobody has written since, fired in
   * any reachable state: the row and the commands of its transition, and the
   * sweep goes on with the next copy.
   */
  lemma TimeoutTakesEffect(acts: seq<Action>, p: nat, t: Transition) returns (more: seq<Action>)
    requires var w := RunFrom(EMPTY, acts);
             && Unlocked(w) && p in w.procs && w.procs[p].Firing? && w.procs[p].due != [] && !t.Start?
             && VersionOf(Row(w.rows, w.procs[p].due[0].id)) == w.procs[p].due[0].version
    ensures var w, w' := RunFrom(EMPTY, acts), RunFrom(EMPTY, acts + more);
            var due := w.procs[p].due;
            && FiresRow(due[0], t, Row(w'.rows, due[0].id)) && OthersUnchanged(w.rows, w'.rows, due[0].id)
            && w'.outbox == w.outbox + Tagged(|w.log|, if t.Ignore? then [] else t.commands)
            && w'.procs == w.procs[p := Firing(due[1..])]
  {
    RunKeepsInv(EMPTY, acts);
    more := FireAlone(RunFrom(EMPTY, acts), p, t);
    RunsCompose(EMPTY, acts, more);
  }

  // ---------------------------------------------------------------- where transitions come from

  /** This action is the saga's answer `t` to an event or a timeout of `id`. */
  predicate AnswersWith(w: World, a: Action, id: Id, t: Transition) {
    && a.React? && a.reaction == Yields(t) && a.p in w.procs
    && match w.procs[a.p]
       case Reacting(of, _, _, _) => of == id
       case Firing(due) => due != [] && due[0].id == id
       case _ => false
  }

  ghost predicate WasAnswered(acts: seq<Action>, id: Id, t: Transition) {
    exists n :: 0 <= n < |acts| && AnswersWith(RunFrom(EMPTY, acts[..n]), acts[n], id, t)
  }

  ghost predicate HasOrigin(acts: seq<Action>, id: Id, deed: Deed) {
    deed.Applied? || deed.FailedUnstored? ==> WasAnswered(acts, id, deed.transition)
  }

  ghost predicate OriginsKnown(acts: seq<Action>, w: World) {
    && (forall p :: p in w.procs && w.procs[p].Saving? ==> HasOrigin(acts, w.procs[p].id, w.procs[p].deed))
    && (forall i :: 0 <= i < |w.log| ==> HasOrigin(acts, w.log[i].id, w.log[i].deed))
  }

  lemma AnswersLast(acts: seq<Action>, a: Action, id: Id, t: Transition)
    requires WasAnswered(acts, id, t) || AnswersWith(RunFrom(EMPTY, acts), a, id, t)
    ensures WasAnswered(acts + [a], id, t)
  {
    var more := acts + [a];
    if WasAnswered(acts, id, t) {
      var n :| 0 <= n < |acts| && AnswersWith(RunFrom(EMPTY, acts[..n]), acts[n], id, t);
      assert more[..n] == acts[..n] && more[n] == acts[n];
    } else {
      assert more[..|acts|] == acts && more[|acts|] == a;
    }
  }

  lemma OriginLasts(acts: seq<Action>, a: Action, id: Id, deed: Deed)
    requires HasOrigin(acts, id, deed) || (deed.Applied? || deed.FailedUnstored? ==> AnswersWith(RunFrom(EMPTY, acts), a, id, deed.transition))
    ensures HasOrigin(acts + [a], id, deed)
  {
    if deed.Applied? || deed.FailedUnstored? {
      AnswersLast(acts, a, id, deed.transition);
    }
  }

  predicate AnsweredNow(w: World, a: Action, id: Id, deed: Deed) {
    deed.Applied? || deed.FailedUnstored? ==> AnswersWith(w, a, id, deed.transition)
  }

  /** A step makes a process save only what is being answered to it. */
  lemma SavesWhatIsAnswered(w: World, a: Action, p: nat)
    requires p in Next(w, a).procs && Next(w, a).procs[p].Saving?
    ensures var pc := Next(w, a).procs[p];
            (p in w.procs && w.procs[p] == pc) || AnsweredNow(w, a, pc.id, pc.deed)
  {
  }

  /** A step logs only what is being saved or answered. */
  lemma LogsWhatIsSaved(w: World, a: Action, i: nat)
    requires |w.log| <= i < |Next(w, a).log|
    ensures var e := Next(w, a).log[i];
            || (a.p in w.procs && w.procs[a.p].Saving? && w.procs[a.p].id == e.id && w.procs[a.p].deed == e.deed)
            || AnsweredNow(w, a, e.id, e.deed)
  {
  }

  lemma OldLinesStay(w: World, a: Action)
    ensures w.log <= Next(w, a).log
  {
  }

  lemma StepKeepsOrigins(acts: seq<Action>, w: World, a: Action)
    requires w == RunFrom(EMPTY, acts) && OriginsKnown(acts, w)
    ensures OriginsKnown(acts + [a], Next(w, a))
  {
    var procs, log := Next(w, a).procs, Next(w, a).log;
    OldLinesStay(w, a);
    forall p | p in procs && procs[p].Saving? ensures HasOrigin(acts + [a], procs[p].id, procs[p].deed) {
      SavesWhatIsAnswered(w, a, p);
      OriginLasts(acts, a, procs[p].id, procs[p].deed);
    }
    forall i | 0 <= i < |log| ensures HasOrigin(acts + [a], log[i].id, log[i].deed) {
      if i >= |w.log| {
        LogsWhatIsSaved(w, a, i);
      }
      OriginLasts(acts, a, log[i].id, log[i].deed);
    }
  }

  /** Every transition in the history was the saga's own answer to an event or timeout of that saga. */
  lemma {:induction false} TransitionsWereAnswered(acts: seq<Action>)
    ensures OriginsKnown(acts, RunFrom(EMPTY, acts))
  {
    if acts != [] {
      var init, a := acts[..|acts| - 1], acts[|acts| - 1];
      assert acts == init + [a];
      TransitionsWereAnswered(init);
      StepKeepsOrigins(init, RunFrom(EMPTY, init), a);
      OneMore(EMPTY, init, a);
    }
  }
}
