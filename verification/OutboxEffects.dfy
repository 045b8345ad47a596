/**
 * What happens to an outbox message beyond its status: it keeps its identity,
 * key and body for good, its attempts count the publisher's calls, and a
 * dispatch or a sweep that nobody interrupts has exactly the effect written out
 * here, from any reachable state.
 */
module OutboxEffects {
  import opened Common
  import opened Sorting
  import opened OutboxStore
  import opened OutboxLifecycle

  lemma OneStep(cfg: Config, l: Life, a: Action)
    ensures RunFrom(cfg, l, [a]) == Next(cfg, l, a)
  {
    assert [a][..0] == [];
  }

  lemma OneMore(cfg: Config, l: Life, acts: seq<Action>, a: Action)
    ensures RunFrom(cfg, l, acts + [a]) == Next(cfg, RunFrom(cfg, l, acts), a)
  {
    assert (acts + [a])[..|acts|] == acts;
  }

  lemma {:induction false} RunsCompose(cfg: Config, l: Life, acts: seq<Action>, more: seq<Action>)
    ensures RunFrom(cfg, l, acts + more) == RunFrom(cfg, RunFrom(cfg, l, acts), more)
  {
    if more == [] {
      assert acts + more == acts;
    } else {
      var init, a := more[..|more| - 1], more[|more| - 1];
      assert more == init + [a] && acts + more == (acts + init) + [a];
      RunsCompose(cfg, l, acts, init);
      OneMore(cfg, l, acts + init, a);
      OneMore(cfg, RunFrom(cfg, l, acts), init, a);
    }
  }

  // ---------------------------------------------------------------- what a message keeps

  lemma StepKeepsMessages(cfg: Config, l: Life, a: Action)
    ensures MessagesKept(l.store, Next(cfg, l, a).store)
  {
  }

  /** Claims, attempts, retries, verdicts and sweeps never touch a message's id, key, body or creation time. */
  lemma {:induction false} MessagesAreKept(cfg: Config, l: Life, acts: seq<Action>)
    ensures MessagesKept(l.store, RunFrom(cfg, l, acts).store)
  {
    if acts != [] {
      var init := acts[..|acts| - 1];
      MessagesAreKept(cfg, l, init);
      StepKeepsMessages(cfg, RunFrom(cfg, l, init), acts[|acts| - 1]);
    }
  }

  /** A new message is stored as it is. */
  lemma InsertTakesEffect(cfg: Config, acts: seq<Action>, m: OutboxMessage)
    requires m.id !in RunFrom(cfg, EMPTY, acts).store && m.status == Pending && m.attempts == 0 && m.lastError == None
    ensures var l := RunFrom(cfg, EMPTY, acts); RunFrom(cfg, EMPTY, acts + [Insert(m)]) == l.(store := l.store[m.id := m])
  {
    OneMore(cfg, EMPTY, acts, Insert(m));
  }

  // ---------------------------------------------------------------- attempts count the publisher's calls

  predicate Publishes(l: Life, a: Action, id: MsgId) {
    a.Publish? && a.w in l.work && l.work[a.w].Tried? && l.work[a.w].id == id
  }

  /** How often a run handed a message to the publisher. */
  ghost function PublishCount(cfg: Config, acts: seq<Action>, id: MsgId): nat {
    if acts == [] then 0
    else
      var init := acts[..|acts| - 1];
      PublishCount(cfg, init, id) + (if Publishes(RunFrom(cfg, EMPTY, init), acts[|acts| - 1], id) then 1 else 0)
  }

  /** An attempt is recorded and its publish still to come. */
  ghost predicate AboutToPublish(l: Life, id: MsgId) {
    exists w :: w in l.work && l.work[w].Tried? && l.work[w].id == id
  }

  ghost predicate Counted(l: Life, id: MsgId, count: nat) {
    id in l.store ==> l.store[id].attempts == count + (if AboutToPublish(l, id) then 1 else 0)
  }

  lemma OnlyWorker(l: Life, w: nat, v: nat)
    requires WorkInv(l) && w in l.work && v in l.work && Unfinished(l.work[w]) && Active(l, l.work[v]) && l.work[w].id == l.work[v].id
    ensures w == v
  {
  }

  /** Steps that leave the message's attempts and its worker's progress alone. */
  lemma SamePublishing(l: Life, l': Life, id: MsgId, count: nat)
    requires Counted(l, id, count) && (id in l'.store ==> id in l.store && l'.store[id].attempts == l.store[id].attempts)
    requires AboutToPublish(l, id) <==> AboutToPublish(l', id)
    ensures Counted(l', id, count)
  {
  }

  lemma RecordCounts(cfg: Config, l: Life, w: nat, id: MsgId, count: nat)
    requires WorkInv(l) && Counted(l, id, count) && MayRecord(l, w)
    ensures Counted(Next(cfg, l, Record(w)), id, count)
  {
    var l' := Next(cfg, l, Record(w));
    if l.work[w].id == id {
      assert l'.work[w].Tried? && l'.work[w].id == id;
      if AboutToPublish(l, id) {
        var v :| v in l.work && l.work[v].Tried? && l.work[v].id == id;
        OnlyWorker(l, v, w);
      }
    } else {
      assert forall v :: v in l.work && l.work[v].id == id ==> v != w && l'.work[v] == l.work[v];
      assert forall v :: v in l'.work && l'.work[v].id == id ==> v != w && l.work[v] == l'.work[v];
      SamePublishing(l, l', id, count);
    }
  }

  lemma PublishCounts(cfg: Config, l: Life, w: nat, outcome: Outcome, id: MsgId, count: nat)
    requires WorkInv(l) && Counted(l, id, count) && w in l.work && l.work[w].Tried?
    ensures Counted(Next(cfg, l, Publish(w, outcome)), id, count + (if l.work[w].id == id then 1 else 0))
  {
    var l' := Next(cfg, l, Publish(w, outcome));
    if l.work[w].id == id {
      assert AboutToPublish(l, id);
      forall v | v in l'.work && l'.work[v].Tried? ensures l'.work[v].id != id {
        if l'.work[v].id == id {
          OnlyWorker(l, w, v);
        }
      }
    } else {
      assert forall v :: v in l.work && l.work[v].id == id ==> v != w && l'.work[v] == l.work[v];
      assert forall v :: v in l'.work && l'.work[v].id == id ==> v != w && l.work[v] == l'.work[v];
      SamePublishing(l, l', id, count);
    }
  }

  lemma NobodyTriesTheNew(l: Life, m: OutboxMessage)
    requires WorkInv(l) && m.id !in l.store
    ensures !AboutToPublish(l, m.id)
  {
  }

  lemma OtherStepsCount(cfg: Config, l: Life, a: Action, id: MsgId, count: nat)
    requires WorkInv(l) && Counted(l, id, count) && !a.Record? && !a.Publish? && !a.Insert?
    ensures Counted(Next(cfg, l, a), id, count)
  {
    var l' := Next(cfg, l, a);
    assert forall w :: w in l.work && l.work[w].Tried? ==> w in l'.work && l'.work[w] == l.work[w];
    assert forall w :: w in l'.work && l'.work[w].Tried? ==> w in l.work && l'.work[w] == l.work[w];
    SamePublishing(l, l', id, count);
  }

  lemma {:induction false} UnknownIsUnpublished(cfg: Config, acts: seq<Action>, id: MsgId)
    requires id !in RunFrom(cfg, EMPTY, acts).store
    ensures PublishCount(cfg, acts, id) == 0
  {
    if acts != [] {
      var init := acts[..|acts| - 1];
      var l := RunFrom(cfg, EMPTY, init);
      StepKeepsMessages(cfg, l, acts[|acts| - 1]);
      UnknownIsUnpublished(cfg, init, id);
      RunKeepsInv(cfg, init);
    }
  }

  lemma StepCounts(cfg: Config, l: Life, a: Action, id: MsgId, count: nat)
    requires WorkInv(l) && Counted(l, id, count) && (id !in l.store ==> count == 0)
    ensures Counted(Next(cfg, l, a), id, count + (if Publishes(l, a, id) then 1 else 0))
  {
    match a {
      case Record(w) =>
        if MayRecord(l, w) {
          RecordCounts(cfg, l, w, id, count);
        }
      case Publish(w, outcome) =>
        if w in l.work && l.work[w].Tried? {
          PublishCounts(cfg, l, w, outcome, id, count);
        }
      case Insert(m) =>
        if m.id !in l.store {
          NobodyTriesTheNew(l, m);
        }
        assert AboutToPublish(l, id) <==> AboutToPublish(Next(cfg, l, a), id);
      case _ => OtherStepsCount(cfg, l, a, id, count);
    }
  }

  lemma {:induction false} RunCounts(cfg: Config, acts: seq<Action>, id: MsgId)
    ensures Counted(RunFrom(cfg, EMPTY, acts), id, PublishCount(cfg, acts, id))
  {
    if acts != [] {
      var init := acts[..|acts| - 1];
      var l := RunFrom(cfg, EMPTY, init);
      RunCounts(cfg, init, id);
      RunKeepsInv(cfg, init);
      if id !in l.store {
        UnknownIsUnpublished(cfg, init, id);
      }
      StepCounts(cfg, l, acts[|acts| - 1], id, PublishCount(cfg, init, id));
    }
  }

  /**
   * The attempts of a message are the publisher's calls for it, plus the one
   * recorded and about to be made; so no run calls the publisher for a message
   * more often than the policy allows.
   */
  lemma AttemptsCountPublishes(cfg: Config, acts: seq<Action>, id: MsgId)
    requires id in RunFrom(cfg, EMPTY, acts).store
    ensures var l := RunFrom(cfg, EMPTY, acts);
            && l.store[id].attempts == PublishCount(cfg, acts, id) + (if AboutToPublish(l, id) then 1 else 0)
            && PublishCount(cfg, acts, id) <= Max(1, cfg.maxAttempts)
  {
    RunCounts(cfg, acts, id);
    AttemptsStayWithinBudget(cfg, acts, id);
  }

  // ---------------------------------------------------------------- a dispatch that nobody interrupts

  function DispatchSteps(w: nat, id: MsgId, now: int, outcome: Outcome, delay: int): seq<Action> {
    [Claim(w, id, now)] + [Record(w)] + [Publish(w, outcome)] + [Settle(w, delay)]
  }

  /** The row after one dispatch, field by field. */
  function Dispatched(cfg: Config, m: OutboxMessage, now: int, outcome: Outcome, delay: int): OutboxMessage {
    var tried := m.(attempts := m.attempts + 1, nextAttemptAt := now + cfg.lease);
    match outcome
    case Delivered => tried.(status := Published, lastError := None)
    case Refused(reason, kind) =>
      if kind.Poison? || m.attempts + 1 >= cfg.maxAttempts then tried.(status := Failed, lastError := Some(reason))
      else tried.(nextAttemptAt := now + delay)
  }

  lemma DispatchFrom(cfg: Config, l: Life, w: nat, id: MsgId, outcome: Outcome, delay: int)
    requires w !in l.work && id in l.store && l.store[id].status == Pending && l.store[id].nextAttemptAt <= l.clock
    requires cfg.lease > 0 && delay >= 0
    ensures var claimed := Next(cfg, l, Claim(w, id, l.clock));
            var l' := Next(cfg, Next(cfg, Next(cfg, claimed, Record(w)), Publish(w, outcome)), Settle(w, delay));
            l' == l.(store := l.store[id := Dispatched(cfg, l.store[id], l.clock, outcome, delay)])
  {
    var until := l.clock + cfg.lease;
    var m1 := l.store[id].(nextAttemptAt := until);
    var m2 := m1.(attempts := m1.attempts + 1);
    var claimed := Next(cfg, l, Claim(w, id, l.clock));
    var recorded := Next(cfg, claimed, Record(w));
    assert recorded.store == l.store[id := m2] && recorded.work == l.work[w := Tried(id, m1.attempts + 1, until)];
    var published := Next(cfg, recorded, Publish(w, outcome));
    assert published.work == l.work[w := Settling(id, m1.attempts + 1, until, outcome)] && published.store == recorded.store;
    assert published.work - {w} == l.work;
    var m3 := Dispatched(cfg, l.store[id], l.clock, outcome, delay);
    assert l.store[id := m2][id := m3] == l.store[id := m3];
  }

  lemma DispatchTakesEffect(cfg: Config, acts: seq<Action>, w: nat, id: MsgId, outcome: Outcome, delay: int)
    requires var l := RunFrom(cfg, EMPTY, acts);
             w !in l.work && id in l.store && l.store[id].status == Pending && l.store[id].nextAttemptAt <= l.clock
    requires cfg.lease > 0 && delay >= 0
    ensures var l := RunFrom(cfg, EMPTY, acts);
            RunFrom(cfg, EMPTY, acts + DispatchSteps(w, id, l.clock, outcome, delay))
            == l.(store := l.store[id := Dispatched(cfg, l.store[id], l.clock, outcome, delay)])
  {
    var l := RunFrom(cfg, EMPTY, acts);
    RunsCompose(cfg, EMPTY, acts, DispatchSteps(w, id, l.clock, outcome, delay));
    OneStep(cfg, l, Claim(w, id, l.clock));
    OneMore(cfg, l, [Claim(w, id, l.clock)], Record(w));
    OneMore(cfg, l, [Claim(w, id, l.clock)] + [Record(w)], Publish(w, outcome));
    OneMore(cfg, l, [Claim(w, id, l.clock)] + [Record(w)] + [Publish(w, outcome)], Settle(w, delay));
    DispatchFrom(cfg, l, w, id, outcome, delay);
  }

  // ---------------------------------------------------------------- a sweep that nobody interrupts

  /** The rest of a sweep done at once. */
  ghost predicate SweptTheRest(l: Life, l': Life) {
    && l'.sweep == [] && l'.work == l.work && l'.clock == l.clock
    && l'.dlq == l.dlq + Records(l.sweep)
    && l'.store.Keys == l.store.Keys
    && forall id :: id in l.store ==>
         l'.store[id] == if Swept(l.sweep, id) then l.store[id].(status := DeadLettered) else l.store[id]
  }

  ghost predicate Swept(sweep: seq<OutboxMessage>, id: MsgId) {
    exists i :: 0 <= i < |sweep| && sweep[i].id == id
  }

  lemma ParkAndMark(cfg: Config, l: Life)
    requires DeadInv(l) && l.sweep != [] && !l.parked
    ensures var id, l' := l.sweep[0].id, Next(cfg, Next(cfg, l, SweepPark), SweepMark);
            && id in l.store && l'.store == l.store[id := l.store[id].(status := DeadLettered)]
            && l'.dlq == l.dlq + [Parked(l.sweep[0])] && l'.sweep == l.sweep[1..] && !l'.parked
            && l'.work == l.work && l'.clock == l.clock
  {
  }

  lemma SweptFirst(sweep: seq<OutboxMessage>, id: MsgId)
    requires sweep != []
    ensures Swept(sweep, id) <==> id == sweep[0].id || Swept(sweep[1..], id)
  {
    if i :| 0 <= i < |sweep| && sweep[i].id == id && i > 0 {
      assert sweep[1..][i - 1].id == id;
    }
    if i :| 0 <= i < |sweep[1..]| && sweep[1..][i].id == id {
      assert sweep[i + 1].id == id;
    }
  }

  lemma RestOfTheSweep(l: Life, l1: Life, l': Life)
    requires DeadInv(l) && l.sweep != [] && SweptTheRest(l1, l')
    requires l1.store == l.store[l.sweep[0].id := l.store[l.sweep[0].id].(status := DeadLettered)]
    requires l1.dlq == l.dlq + [Parked(l.sweep[0])] && l1.sweep == l.sweep[1..] && l1.work == l.work && l1.clock == l.clock
    ensures SweptTheRest(l, l')
  {
    assert l.sweep == [l.sweep[0]] + l.sweep[1..];
    assert Records(l.sweep) == [Parked(l.sweep[0])] + Records(l.sweep[1..]);
    forall id ensures Swept(l.sweep, id) <==> id == l.sweep[0].id || Swept(l.sweep[1..], id) {
      SweptFirst(l.sweep, id);
    }
    assert !Swept(l.sweep[1..], l.sweep[0].id);
  }

  lemma {:induction false} FinishSweep(cfg: Config, l: Life) returns (acts: seq<Action>)
    requires Inv(cfg, l) && !l.parked
    ensures SweptTheRest(l, RunFrom(cfg, l, acts))
    decreases |l.sweep|
  {
    if l.sweep == [] {
      acts := [];
      assert l.dlq + Records([]) == l.dlq;
    } else {
      var parked := Next(cfg, l, SweepPark);
      var l1 := Next(cfg, parked, SweepMark);
      ParkAndMark(cfg, l);
      StepKeepsInv(cfg, l, SweepPark);
      StepKeepsInv(cfg, parked, SweepMark);
      acts := FinishSweep(cfg, l1);
      RestOfTheSweep(l, l1, RunFrom(cfg, l1, acts));
      OneStep(cfg, l, SweepPark);
      OneMore(cfg, l, [SweepPark], SweepMark);
      RunsCompose(cfg, l, [SweepPark] + [SweepMark], acts);
      acts := [SweepPark] + [SweepMark] + acts;
    }
  }

  /** A sweep from any reachable state parks the oldest failed, one record each in order, and marks exactly those. */
  lemma SweepTakesEffect(cfg: Config, acts: seq<Action>, picked: seq<MsgId>, limit: nat) returns (more: seq<Action>)
    requires var l := RunFrom(cfg, EMPTY, acts); l.sweep == [] && OldestFailed(l.store, limit, picked)
    ensures var l, l' := RunFrom(cfg, EMPTY, acts), RunFrom(cfg, EMPTY, acts + more);
            && (forall id :: id in picked ==> id in l.store)
            && l'.sweep == [] && l'.dlq == l.dlq + Records(Copies(l.store, picked))
            && l'.store == AfterSweep(l.store, picked)
  {
    var l := RunFrom(cfg, EMPTY, acts);
    RunKeepsInv(cfg, acts);
    PickedAreFailed(l.store, limit, picked);
    var begun := Next(cfg, l, SweepBegin(picked, limit));
    StepKeepsInv(cfg, l, SweepBegin(picked, limit));
    more := FinishSweep(cfg, begun);
    OneStep(cfg, l, SweepBegin(picked, limit));
    RunsCompose(cfg, l, [SweepBegin(picked, limit)], more);
    SweptThePicked(cfg, l, picked, RunFrom(cfg, begun, more).store);
    more := [SweepBegin(picked, limit)] + more;
    RunsCompose(cfg, EMPTY, acts, more);
  }

  lemma SweptThePicked(cfg: Config, l: Life, picked: seq<MsgId>, store': Store)
    requires WellKeyed(l.store) && (forall id :: id in picked ==> id in l.store) && store'.Keys == l.store.Keys
    requires forall id :: id in l.store ==>
               store'[id] == if Swept(Copies(l.store, picked), id) then l.store[id].(status := DeadLettered) else l.store[id]
    ensures store' == AfterSweep(l.store, picked)
  {
    forall id | id in l.store ensures Swept(Copies(l.store, picked), id) <==> id in picked {
      if id in picked {
        var i :| 0 <= i < |picked| && picked[i] == id;
        assert Copies(l.store, picked)[i].id == id;
      }
    }
  }
}
