/**
 * The life of an outbox message under concurrent dispatchers and sweeps. Each
 * claimed message is dispatched by its own worker (record the attempt, publish,
 * settle), which covers every lane arrangement. The two operating assumptions
 * are part of the steps: a dispatch that has begun ends inside its lease (the
 * clock cannot pass the lease of an unfinished dispatch), and a sweep starts
 * only when the previous one is done.
 */
module OutboxLifecycle {
  import opened Common
  import opened RetryPolicy
  import opened OutboxStore

  datatype Config = Config(maxAttempts: nat, lease: int)

  datatype Outcome = Delivered | Refused(reason: Reason, kind: FailureKind)

  datatype Work =
    | Held(id: MsgId, copied: nat, until: int)                    // claimed; `copied` is the copy's attempt count
    | Tried(id: MsgId, attempt: nat, until: int)                  // attempt recorded, publish in progress
    | Settling(id: MsgId, attempt: nat, until: int, outcome: Outcome)

  /** `sweep` lists what the running sweep still has to park; `parked` says its head is already recorded. */
  datatype Life = Life(store: Store, clock: int, work: map<nat, Work>, sweep: seq<OutboxMessage>, parked: bool, dlq: seq<DeadLetter>)

  datatype Action =
    | Insert(message: OutboxMessage)
    | Tick(clock: int)
    | Claim(w: nat, id: MsgId, now: int)
    | Record(w: nat)
    | Publish(w: nat, outcome: Outcome)
    | Settle(w: nat, delay: int)
    | Abandon(w: nat)
    | SweepBegin(picked: seq<MsgId>, limit: nat)
    | SweepPark
    | SweepMark

  const EMPTY := Life(map[], 0, map[], [], false, [])

  predicate Unfinished(wk: Work) {
    wk.Tried? || wk.Settling?
  }

  // ---------------------------------------------------------------- steps

  predicate Fresh(m: OutboxMessage) {
    m.status.Pending? && m.attempts == 0 && m.lastError.None?
  }

  ghost predicate MayTick(l: Life, clock: int) {
    l.clock <= clock && forall w :: w in l.work && Unfinished(l.work[w]) ==> clock < l.work[w].until
  }

  predicate MayClaim(l: Life, w: nat, id: MsgId, now: int) {
    w !in l.work && now <= l.clock && id in l.store && Due(l.store[id], now)
  }

  function AfterClaim(cfg: Config, l: Life, w: nat, id: MsgId, now: int): Life
    requires MayClaim(l, w, id, now)
  {
    l.(store := l.store[id := Leased(l.store[id], now + cfg.lease)],
       work := l.work[w := Held(id, l.store[id].attempts, now + cfg.lease)])
  }

  predicate MayRecord(l: Life, w: nat) {
    w in l.work && l.work[w].Held? && l.work[w].id in l.store && l.clock < l.work[w].until
  }

  function AfterRecord(l: Life, w: nat): Life
    requires MayRecord(l, w)
  {
    var id := l.work[w].id;
    l.(store := l.store[id := Attempted(l.store[id])],
       work := l.work[w := Tried(id, l.work[w].copied + 1, l.work[w].until)])
  }

  /** The row after a dispatch settled: published, failed for good, or rescheduled. */
  function Settled(cfg: Config, m: OutboxMessage, attempt: nat, outcome: Outcome, at: int): OutboxMessage {
    match outcome
    case Delivered => MarkedPublished(m)
    case Refused(reason, kind) =>
      if DecideFor(cfg.maxAttempts, attempt, kind).ToDeadLetter? then MarkedFailed(m, reason) else Leased(m, at)
  }

  predicate MaySettle(l: Life, w: nat, delay: int) {
    w in l.work && l.work[w].Settling? && l.work[w].id in l.store && delay >= 0
  }

  function AfterSettle(cfg: Config, l: Life, w: nat, delay: int): Life
    requires MaySettle(l, w, delay)
  {
    var wk := l.work[w];
    l.(store := l.store[wk.id := Settled(cfg, l.store[wk.id], wk.attempt, wk.outcome, l.clock + delay)],
       work := l.work - {w})
  }

  ghost predicate MaySweep(l: Life, picked: seq<MsgId>, limit: nat) {
    l.sweep == [] && OldestFailed(l.store, limit, picked) && forall id :: id in picked ==> id in l.store
  }

  function AfterSweepMark(l: Life): Life
    requires l.sweep != [] && l.sweep[0].id in l.store
  {
    var id := l.sweep[0].id;
    l.(store := l.store[id := l.store[id].(status := DeadLettered)], sweep := l.sweep[1..], parked := false)
  }

  ghost function Next(cfg: Config, l: Life, a: Action): Life {
    match a
    case Insert(m) => if m.id in l.store || !Fresh(m) then l else l.(store := l.store[m.id := m])
    case Tick(clock) => if MayTick(l, clock) then l.(clock := clock) else l
    case Claim(w, id, now) => if MayClaim(l, w, id, now) then AfterClaim(cfg, l, w, id, now) else l
    case Record(w) => if MayRecord(l, w) then AfterRecord(l, w) else l
    case Publish(w, outcome) =>
      if w in l.work && l.work[w].Tried?
      then l.(work := l.work[w := Settling(l.work[w].id, l.work[w].attempt, l.work[w].until, outcome)]) else l
    case Settle(w, delay) => if MaySettle(l, w, delay) then AfterSettle(cfg, l, w, delay) else l
    case Abandon(w) => if w in l.work && l.work[w].Held? then l.(work := l.work - {w}) else l
    case SweepBegin(picked, limit) =>
      if MaySweep(l, picked, limit) then l.(sweep := Copies(l.store, picked), parked := false) else l
    case SweepPark =>
      if l.sweep != [] && !l.parked then l.(dlq := l.dlq + [Parked(l.sweep[0])], parked := true) else l
    case SweepMark =>
      if l.sweep != [] && l.parked && l.sweep[0].id in l.store then AfterSweepMark(l) else l
  }

  ghost function RunFrom(cfg: Config, l: Life, acts: seq<Action>): Life {
    if acts == [] then l else Next(cfg, RunFrom(cfg, l, acts[..|acts| - 1]), acts[|acts| - 1])
  }

  // ---------------------------------------------------------------- one worker per message

  /** A worker that may still act on its message. */
  predicate Active(l: Life, wk: Work) {
    Unfinished(wk) || l.clock < wk.until
  }

  ghost predicate WorkOk(l: Life, wk: Work) {
    && wk.id in l.store
    && (Unfinished(wk) ==> l.clock < wk.until)
    && (Active(l, wk) ==>
          && l.store[wk.id].status.Pending?
          && l.store[wk.id].nextAttemptAt == wk.until
          && l.store[wk.id].attempts == (if wk.Held? then wk.copied else wk.attempt))
  }

  ghost predicate WorkInv(l: Life) {
    && WellKeyed(l.store)
    && (forall w :: w in l.work ==> WorkOk(l, l.work[w]))
    && (forall w, v ::
          (w in l.work && v in l.work && Active(l, l.work[w]) && Active(l, l.work[v]) && l.work[w].id == l.work[v].id)
          ==> w == v)
  }

  ghost predicate Busy(l: Life, id: MsgId) {
    exists w :: w in l.work && Unfinished(l.work[w]) && l.work[w].id == id
  }

  ghost predicate BudgetInv(cfg: Config, l: Life) {
    forall id :: id in l.store ==>
      && l.store[id].attempts <= Budget(cfg.maxAttempts)
      && (l.store[id].status.Pending? ==> l.store[id].attempts < Budget(cfg.maxAttempts) || Busy(l, id))
  }

  function RecordCount(dlq: seq<DeadLetter>, id: MsgId): nat {
    if dlq == [] then 0
    else RecordCount(dlq[..|dlq| - 1], id) + (if dlq[|dlq| - 1].id == id then 1 else 0)
  }

  predicate AtSweepHead(l: Life, id: MsgId) {
    l.sweep != [] && l.parked && l.sweep[0].id == id
  }

  ghost predicate DeadInv(l: Life) {
    && (forall i :: 0 <= i < |l.sweep| ==>
          && l.sweep[i].id in l.store && l.store[l.sweep[i].id] == l.sweep[i] && l.sweep[i].status.Failed?)
    && (forall i, j :: 0 <= i < j < |l.sweep| ==> l.sweep[i].id != l.sweep[j].id)
    && (l.parked ==> l.sweep != [])
    && (forall id :: RecordCount(l.dlq, id) ==
          if id in l.store && (l.store[id].status.DeadLettered? || AtSweepHead(l, id)) then 1 else 0)
    && (forall i :: 0 <= i < |l.dlq| ==> l.dlq[i].id in l.store && l.dlq[i] == Parked(l.store[l.dlq[i].id]))
  }

  ghost predicate Inv(cfg: Config, l: Life) {
    WorkInv(l) && BudgetInv(cfg, l) && DeadInv(l)
  }

  /** The only ways a status may move in one step. */
  predicate Moves(from: Status, to: Status) {
    || from == to
    || (from.Pending? && (to.Published? || to.Failed?))
    || (from.Failed? && to.DeadLettered?)
  }

  ghost predicate StatusesMove(store: Store, store': Store) {
    forall id :: id in store ==> id in store' && Moves(store[id].status, store'[id].status)
  }

  /** The statuses reachable from one another by such moves. */
  predicate Advances(from: Status, to: Status) {
    || from == to
    || from.Pending?
    || (from.Failed? && to.DeadLettered?)
  }

  ghost predicate StatusesAdvance(store: Store, store': Store) {
    forall id :: id in store ==> id in store' && Advances(store[id].status, store'[id].status)
  }

  // ---------------------------------------------------------------- what every step keeps

  lemma ClaimKeepsWork(cfg: Config, l: Life, w: nat, id: MsgId, now: int)
    requires WorkInv(l) && MayClaim(l, w, id, now)
    ensures WorkInv(AfterClaim(cfg, l, w, id, now))
  {
    var l' := AfterClaim(cfg, l, w, id, now);
    // a still active worker would hold the message past the clock, so it was not due
    forall v | v in l.work && l.work[v].id == id ensures !Active(l, l.work[v]) {
      assert WorkOk(l, l.work[v]);
    }
  }

  lemma ClaimKeepsBudget(cfg: Config, l: Life, w: nat, id: MsgId, now: int)
    requires BudgetInv(cfg, l) && MayClaim(l, w, id, now)
    ensures BudgetInv(cfg, AfterClaim(cfg, l, w, id, now))
  {
    var l' := AfterClaim(cfg, l, w, id, now);
    forall jd | Busy(l, jd) ensures Busy(l', jd) {
      var v :| v in l.work && Unfinished(l.work[v]) && l.work[v].id == jd;
      assert l'.work[v] == l.work[v];
    }
  }

  lemma RecordKeepsWork(l: Life, w: nat)
    requires WorkInv(l) && MayRecord(l, w)
    ensures WorkInv(AfterRecord(l, w))
  {
    var l', id := AfterRecord(l, w), l.work[w].id;
    forall v | v in l.work && v != w && l.work[v].id == id ensures !Active(l, l.work[v]) {
      assert Active(l, l.work[w]);
    }
  }

  lemma RecordKeepsBudget(cfg: Config, l: Life, w: nat)
    requires WorkInv(l) && BudgetInv(cfg, l) && MayRecord(l, w)
    ensures BudgetInv(cfg, AfterRecord(l, w))
  {
    var l', id := AfterRecord(l, w), l.work[w].id;
    assert WorkOk(l, l.work[w]);
    assert !Busy(l, id);
    assert l'.work[w].id == id && Busy(l', id);
    forall jd | Busy(l, jd) ensures Busy(l', jd) {
      var v :| v in l.work && Unfinished(l.work[v]) && l.work[v].id == jd;
      assert l'.work[v] == l.work[v];
    }
  }

  lemma SettleKeepsWork(cfg: Config, l: Life, w: nat, delay: int)
    requires WorkInv(l) && MaySettle(l, w, delay)
    ensures WorkInv(AfterSettle(cfg, l, w, delay))
  {
    var id := l.work[w].id;
    forall v | v in l.work && v != w && l.work[v].id == id ensures !Active(l, l.work[v]) {
      assert Active(l, l.work[w]);
    }
  }

  lemma SettleKeepsBudget(cfg: Config, l: Life, w: nat, delay: int)
    requires WorkInv(l) && BudgetInv(cfg, l) && MaySettle(l, w, delay)
    ensures BudgetInv(cfg, AfterSettle(cfg, l, w, delay))
  {
    var l', id := AfterSettle(cfg, l, w, delay), l.work[w].id;
    assert WorkOk(l, l.work[w]);
    forall jd | jd != id && Busy(l, jd) ensures Busy(l', jd) {
      var v :| v in l.work && Unfinished(l.work[v]) && l.work[v].id == jd;
      assert v in l'.work && l'.work[v] == l.work[v];
    }
  }

  /** Only pending rows change under the dead-letter bookkeeping, and a changed row stays un-dead-lettered. */
  lemma PendingChangeKeepsDead(l: Life, l': Life, id: MsgId)
    requires DeadInv(l) && l'.sweep == l.sweep && l'.parked == l.parked && l'.dlq == l.dlq
    requires id in l'.store && !l'.store[id].status.DeadLettered?
    requires id in l.store ==> l.store[id].status.Pending?
    requires l'.store == l.store[id := l'.store[id]]
    ensures DeadInv(l')
  {
    forall i | 0 <= i < |l.dlq| ensures l.dlq[i].id != id {
      RecordIsCounted(l.dlq, i);
    }
  }

  lemma {:induction false} RecordIsCounted(dlq: seq<DeadLetter>, i: nat)
    requires i < |dlq|
    ensures RecordCount(dlq, dlq[i].id) >= 1
  {
    if i < |dlq| - 1 {
      RecordIsCounted(dlq[..|dlq| - 1], i);
    }
  }

  lemma SweepBeginKeepsDead(l: Life, picked: seq<MsgId>, limit: nat)
    requires WellKeyed(l.store) && DeadInv(l) && MaySweep(l, picked, limit)
    ensures DeadInv(l.(sweep := Copies(l.store, picked), parked := false))
  {
    var l' := l.(sweep := Copies(l.store, picked), parked := false);
    forall i | 0 <= i < |l'.sweep| ensures l'.sweep[i].status.Failed? && l'.sweep[i].id == picked[i] {
      assert picked[i] in FailedIds(l.store);
    }
  }

  lemma SweepParkKeepsDead(l: Life)
    requires WellKeyed(l.store) && DeadInv(l) && l.sweep != [] && !l.parked
    ensures DeadInv(l.(dlq := l.dlq + [Parked(l.sweep[0])], parked := true))
  {
    assert (l.dlq + [Parked(l.sweep[0])])[..|l.dlq|] == l.dlq;
  }

  lemma SweepMarkKeepsInv(cfg: Config, l: Life)
    requires Inv(cfg, l) && l.sweep != [] && l.parked
    ensures Inv(cfg, AfterSweepMark(l))
  {
    var l', id := AfterSweepMark(l), l.sweep[0].id;
    forall v | v in l.work && l.work[v].id == id ensures !Active(l, l.work[v]) {
      assert WorkOk(l, l.work[v]);
    }
    forall jd | Busy(l, jd) ensures Busy(l', jd) {
    }
  }

  lemma TickKeepsInv(cfg: Config, l: Life, clock: int)
    requires Inv(cfg, l) && MayTick(l, clock)
    ensures Inv(cfg, l.(clock := clock))
  {
    var l' := l.(clock := clock);
    forall w | w in l'.work ensures WorkOk(l', l'.work[w]) {
      assert WorkOk(l, l.work[w]);
    }
    forall id | Busy(l, id) ensures Busy(l', id) {
    }
  }

  lemma PublishKeepsInv(cfg: Config, l: Life, w: nat, outcome: Outcome)
    requires Inv(cfg, l) && w in l.work && l.work[w].Tried?
    ensures Inv(cfg, Next(cfg, l, Publish(w, outcome)))
  {
    var l' := Next(cfg, l, Publish(w, outcome));
    assert WorkOk(l, l.work[w]);
    forall id | Busy(l, id) ensures Busy(l', id) {
      var v :| v in l.work && Unfinished(l.work[v]) && l.work[v].id == id;
      assert v in l'.work && Unfinished(l'.work[v]) && l'.work[v].id == id;
    }
  }

  lemma AbandonKeepsInv(cfg: Config, l: Life, w: nat)
    requires Inv(cfg, l) && w in l.work && l.work[w].Held?
    ensures Inv(cfg, l.(work := l.work - {w}))
  {
    var l' := l.(work := l.work - {w});
    forall id | Busy(l, id) ensures Busy(l', id) {
      var v :| v in l.work && Unfinished(l.work[v]) && l.work[v].id == id;
      assert v in l'.work && l'.work[v] == l.work[v];
    }
  }

  lemma InsertKeepsInv(cfg: Config, l: Life, m: OutboxMessage)
    requires Inv(cfg, l) && m.id !in l.store && Fresh(m)
    ensures Inv(cfg, l.(store := l.store[m.id := m]))
  {
    var l' := l.(store := l.store[m.id := m]);
    PendingChangeKeepsDead(l, l', m.id);
    forall w | w in l'.work ensures WorkOk(l', l'.work[w]) {
      assert WorkOk(l, l.work[w]);
    }
    forall id | Busy(l, id) ensures Busy(l', id) {
    }
  }

  lemma DispatchStepKeepsInv(cfg: Config, l: Life, a: Action)
    requires Inv(cfg, l) && (a.Claim? || a.Record? || a.Settle?)
    ensures Inv(cfg, Next(cfg, l, a))
  {
    match a {
      case Claim(w, id, now) =>
        if MayClaim(l, w, id, now) {
          ClaimKeepsWork(cfg, l, w, id, now);
          ClaimKeepsBudget(cfg, l, w, id, now);
          PendingChangeKeepsDead(l, AfterClaim(cfg, l, w, id, now), id);
        }
      case Record(w) =>
        if MayRecord(l, w) {
          RecordKeepsWork(l, w);
          RecordKeepsBudget(cfg, l, w);
          assert WorkOk(l, l.work[w]);
          PendingChangeKeepsDead(l, AfterRecord(l, w), l.work[w].id);
        }
      case Settle(w, delay) =>
        if MaySettle(l, w, delay) {
          SettleKeepsWork(cfg, l, w, delay);
          SettleKeepsBudget(cfg, l, w, delay);
          assert WorkOk(l, l.work[w]);
          PendingChangeKeepsDead(l, AfterSettle(cfg, l, w, delay), l.work[w].id);
        }
    }
  }

  lemma SweepStepKeepsInv(cfg: Config, l: Life, a: Action)
    requires Inv(cfg, l) && (a.SweepBegin? || a.SweepPark? || a.SweepMark?)
    ensures Inv(cfg, Next(cfg, l, a))
  {
    var l' := Next(cfg, l, a);
    if l' != l {
      match a {
        case SweepBegin(picked, limit) => SweepBeginKeepsDead(l, picked, limit);
        case SweepPark => SweepParkKeepsDead(l);
        case SweepMark => SweepMarkKeepsInv(cfg, l);
      }
      if !a.SweepMark? {
        forall id | Busy(l, id) ensures Busy(l', id) {
        }
      }
    }
  }

  lemma StepKeepsInv(cfg: Config, l: Life, a: Action)
    requires Inv(cfg, l)
    ensures Inv(cfg, Next(cfg, l, a))
  {
    if a.Claim? || a.Record? || a.Settle? {
      DispatchStepKeepsInv(cfg, l, a);
    } else if a.SweepBegin? || a.SweepPark? || a.SweepMark? {
      SweepStepKeepsInv(cfg, l, a);
    } else if Next(cfg, l, a) != l {
      match a {
        case Insert(m) => InsertKeepsInv(cfg, l, m);
        case Tick(clock) => TickKeepsInv(cfg, l, clock);
        case Publish(w, outcome) => PublishKeepsInv(cfg, l, w, outcome);
        case Abandon(w) => AbandonKeepsInv(cfg, l, w);
      }
    }
  }

  lemma {:induction false} RunKeepsInv(cfg: Config, acts: seq<Action>)
    ensures Inv(cfg, RunFrom(cfg, EMPTY, acts))
  {
    if acts != [] {
      RunKeepsInv(cfg, acts[..|acts| - 1]);
      StepKeepsInv(cfg, RunFrom(cfg, EMPTY, acts[..|acts| - 1]), acts[|acts| - 1]);
    }
  }

  // ---------------------------------------------------------------- theorems over every run

  lemma StepMoves(cfg: Config, l: Life, a: Action)
    requires WorkInv(l) && DeadInv(l)
    ensures StatusesMove(l.store, Next(cfg, l, a).store)
  {
    if a.Settle? && MaySettle(l, a.w, a.delay) {
      assert WorkOk(l, l.work[a.w]);
    } else if a.SweepMark? && l.sweep != [] {
      assert l.store[l.sweep[0].id].status.Failed?;
    }
  }

  lemma LastStepAdvances(cfg: Config, acts: seq<Action>, a: Action)
    ensures StatusesMove(RunFrom(cfg, EMPTY, acts).store, RunFrom(cfg, EMPTY, acts + [a]).store)
    ensures StatusesAdvance(RunFrom(cfg, EMPTY, acts).store, RunFrom(cfg, EMPTY, acts + [a]).store)
  {
    assert (acts + [a])[..|acts|] == acts;
    RunKeepsInv(cfg, acts);
    StepMoves(cfg, RunFrom(cfg, EMPTY, acts), a);
  }

  lemma AdvanceIsTransitive(a: Store, b: Store, c: Store)
    requires StatusesAdvance(a, b) && StatusesAdvance(b, c)
    ensures StatusesAdvance(a, c)
  {
  }

  /** Pending moves to Published or Failed, Failed to DeadLettered, and nothing ever moves back or disappears. */
  lemma {:induction false} StatusesOnlyAdvance(cfg: Config, acts: seq<Action>, more: seq<Action>)
    ensures StatusesAdvance(RunFrom(cfg, EMPTY, acts).store, RunFrom(cfg, EMPTY, acts + more).store)
    decreases |more|
  {
    if more == [] {
      assert acts + more == acts;
    } else {
      StatusesOnlyAdvance(cfg, acts + [more[0]], more[1..]);
      assert acts + [more[0]] + more[1..] == acts + more;
      LastStepAdvances(cfg, acts, more[0]);
      AdvanceIsTransitive(RunFrom(cfg, EMPTY, acts).store, RunFrom(cfg, EMPTY, acts + [more[0]]).store,
                          RunFrom(cfg, EMPTY, acts + more).store);
    }
  }

  /** No message is ever tried more often than the policy allows. */
  lemma AttemptsStayWithinBudget(cfg: Config, acts: seq<Action>, id: MsgId)
    requires id in RunFrom(cfg, EMPTY, acts).store
    ensures RunFrom(cfg, EMPTY, acts).store[id].attempts <= Budget(cfg.maxAttempts)
  {
    RunKeepsInv(cfg, acts);
  }

  /** The dead-letter queue holds one faithful record per dead-lettered message and none for any other. */
  lemma OneRecordPerDeadLetter(cfg: Config, acts: seq<Action>, id: MsgId)
    ensures var l := RunFrom(cfg, EMPTY, acts);
            && (!AtSweepHead(l, id) ==>
                  RecordCount(l.dlq, id) == if id in l.store && l.store[id].status.DeadLettered? then 1 else 0)
            && (AtSweepHead(l, id) ==> RecordCount(l.dlq, id) == 1 && id in l.store && l.store[id].status.Failed?)
            && (forall i :: 0 <= i < |l.dlq| ==> l.dlq[i].id in l.store && l.dlq[i] == Parked(l.store[l.dlq[i].id]))
  {
    RunKeepsInv(cfg, acts);
  }

  /**
   * What settling a dispatch does, in terms of the stored attempt count: a
   * poisoned message fails at once, a transient failure fails exactly when the
   * attempts are used up, and otherwise waits for its backoff.
   */
  ghost predicate Decided(cfg: Config, l: Life, w: nat, delay: int)
    requires MaySettle(l, w, delay)
  {
    var wk, l' := l.work[w], Next(cfg, l, Settle(w, delay));
    && wk.id in l'.store
    && var m, m' := l.store[wk.id], l'.store[wk.id];
    && m.status.Pending? && m'.attempts == m.attempts
    && (m'.status.Published? <==> wk.outcome.Delivered?)
    && (m'.status.Failed? <==> wk.outcome.Refused? && (wk.outcome.kind.Poison? || m.attempts >= cfg.maxAttempts))
    && (m'.status.Failed? ==> m'.lastError == Some(wk.outcome.reason))
    && (m'.status.Pending? ==> m'.nextAttemptAt == l.clock + delay)
  }

  lemma SettleDecides(cfg: Config, l: Life, w: nat, delay: int)
    requires WorkInv(l) && MaySettle(l, w, delay)
    ensures Decided(cfg, l, w, delay)
  {
    assert WorkOk(l, l.work[w]);
  }

  lemma SettlingDecides(cfg: Config, acts: seq<Action>, w: nat, delay: int)
    requires MaySettle(RunFrom(cfg, EMPTY, acts), w, delay)
    ensures Decided(cfg, RunFrom(cfg, EMPTY, acts), w, delay)
  {
    RunKeepsInv(cfg, acts);
    SettleDecides(cfg, RunFrom(cfg, EMPTY, acts), w, delay);
  }
}
