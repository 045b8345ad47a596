/**
 * `SagaRunner` as a state machine: any number of `handle` calls and timeout
 * sweeps interleave at the code's own atomic steps (load, the user's reaction,
 * the compare-and-swap save, one outbox insert, one row of a claim pass). A run
 * is any sequence of actions; an action that is not enabled leaves the world as
 * it is. The user's `react` and `on_timeout` are the `Reaction` carried by a
 * `React` action, so they are arbitrary.
 */
module SagaProtocol {
  import opened Common
  import opened SagaStore
  import opened Sorting

  const MAX_CONFLICT_RETRIES: nat := 8

  datatype Transition =
    | Ignore
    | Start(state: Payload, commands: seq<Command>, deadline: Option<int>)
    | Advance(state: Payload, commands: seq<Command>, deadline: Option<int>)
    | Complete(state: Payload, commands: seq<Command>)
    | Fail(commands: seq<Command>)

  /** What a reaction does to the stored row. */
  datatype Deed =
    | Applied(transition: Transition)
    | DeadlineCleared                     // a timeout the saga ignored
    | LeaseTaken(now: int, lease: int)    // a sweep's claim
    | FailedUnstored(transition: Transition, loadedAt: nat)   // `Fail` with no stored instance: commands only

  /** One line of the global history. `seen` is the row version its author had read. */
  datatype Entry = Entry(id: Id, deed: Deed, seen: nat, commands: seq<Command>)

  datatype Reaction = Errs | Yields(transition: Transition)

  /** A lost attempt of `handle`: the length of the history at its load and at its refused save. */
  datatype Window = Window(loadedAt: nat, lostAt: nat, restart: bool)

  /** `loadedAt` is the length of the history at the load this attempt works from. */
  datatype Call =
    | EventCall(lost: seq<Window>, loadedAt: nat)
    | SweepCall(rest: seq<Instance>)

  datatype Pc =
    | Loading(id: Id, lost: seq<Window>)
    | Reacting(id: Id, current: Option<Instance>, lost: seq<Window>, loadedAt: nat)
    | Claiming(now: int, lease: int, rest: seq<Id>, claimed: seq<Instance>)
    | Firing(due: seq<Instance>)
    | Saving(id: Id, base: Option<Instance>, deed: Deed, call: Call)
    | Enqueueing(ticket: nat, next: nat, call: Call)

  /** An outbox message, tagged with the history line that emitted it. */
  datatype Queued = Queued(ticket: nat, command: Command)

  /** A `handle` call that returned `Conflict`, with all of its lost attempts. */
  datatype GaveUp = GaveUp(id: Id, lost: seq<Window>)

  /** A process missing from `procs` is idle. `dropped` lists batches cut short by a crash or a failed insert. */
  datatype World = World(rows: Rows, procs: map<nat, Pc>, log: seq<Entry>, outbox: seq<Queued>, dropped: set<nat>, gaveUp: seq<GaveUp>)

  datatype Action =
    | Handle(p: nat, id: Id)
    | Sweep(p: nat, now: int, lease: int, limit: nat, picked: seq<Id>)
    | ClaimRow(p: nat)
    | Load(p: nat)
    | React(p: nat, reaction: Reaction)
    | Save(p: nat)
    | Insert(p: nat)
    | InsertFails(p: nat)
    | Crash(p: nat)

  // ---------------------------------------------------------------- steps

  function CommandsOf(t: Transition): seq<Command> {
    if t.Ignore? then [] else t.commands
  }

  /** Deeds that hand an instance to `save`; `Fail` and a cleared deadline need an instance to update. */
  predicate Proposable(base: Option<Instance>, deed: Deed) {
    match deed
    case Applied(t) => !t.Ignore? && (t.Fail? ==> base.Some?)
    case DeadlineCleared => base.Some?
    case LeaseTaken(_, _) => false
    case FailedUnstored(_, _) => false
  }

  /** The instance `apply_transition` builds from the copy the process loaded. */
  function Proposal(id: Id, base: Option<Instance>, deed: Deed): Instance
    requires Proposable(base, deed)
  {
    match deed
    case DeadlineCleared => base.value.(deadline := None)
    case Applied(t) =>
      match t
      case Start(s, _, d) => Instance(id, s, Running, d, 0)
      case Advance(s, _, d) =>
        (if base.Some? then base.value else Instance(id, s, Running, None, 0)).(state := s, status := Running, deadline := d)
      case Complete(s, _) =>
        (if base.Some? then base.value else Instance(id, s, Running, None, 0)).(state := s, status := Completed, deadline := None)
      case Fail(_) => base.value.(status := Failed, deadline := None)
  }

  function DeedCommands(deed: Deed): seq<Command> {
    if deed.Applied? || deed.FailedUnstored? then CommandsOf(deed.transition) else []
  }

  function Goto(w: World, p: nat, pc: Pc): World {
    w.(procs := w.procs[p := pc])
  }

  function Stop(w: World, p: nat): World {
    w.(procs := w.procs - {p})
  }

  function Resume(w: World, p: nat, call: Call): World {
    match call
    case EventCall(_, _) => Stop(w, p)
    case SweepCall(rest) => Goto(w, p, Firing(rest))
  }

  /**
   * `claim_due` and `save` exclude each other through the store's mutex; a
   * process claiming row after row holds it. `load` does not take it.
   */
  ghost predicate Unlocked(w: World) {
    forall q :: q in w.procs ==> !w.procs[q].Claiming?
  }

  /** The selection pass of `claim_due`, under the mutex. */
  ghost predicate CanSweep(w: World, a: Action) {
    a.Sweep? && a.p !in w.procs && Unlocked(w) && SoonestDue(w.rows, a.now, a.limit, a.picked)
  }

  /** The claim loop, one row per step; the mutex is released with the last row. */
  function AfterClaim(w: World, p: nat, pc: Pc): World
    requires pc.Claiming?
  {
    if pc.rest == [] then Goto(w, p, Firing(pc.claimed))
    else if pc.rest[0] !in w.rows then Goto(w, p, pc.(rest := pc.rest[1..]))
    else
      var id := pc.rest[0];
      var row := ClaimedRow(w.rows[id], pc.now + pc.lease);
      Goto(w.(rows := w.rows[id := row],
              log := w.log + [Entry(id, LeaseTaken(pc.now, pc.lease), w.rows[id].version, [])]),
           p, pc.(rest := pc.rest[1..], claimed := pc.claimed + [row.(deadline := w.rows[id].deadline)]))
  }

  function UnstoredFail(pc: Pc, t: Transition): Entry
    requires pc.Reacting? && t.Fail?
  {
    Entry(pc.id, FailedUnstored(t, pc.loadedAt), 0, t.commands)
  }

  /** `handle` after `react`: Ignore and terminal instances stop the call, the rest is applied. */
  function AfterReact(w: World, p: nat, pc: Pc, r: Reaction): World
    requires pc.Reacting?
  {
    if r.Errs? || r.transition.Ignore? then Stop(w, p)
    else if pc.current.Some? && !pc.current.value.status.Running? then Stop(w, p)
    else if r.transition.Fail? && pc.current.None? then
      Goto(w.(log := w.log + [UnstoredFail(pc, r.transition)]), p, Enqueueing(|w.log|, 0, EventCall(pc.lost, pc.loadedAt)))
    else
      Goto(w, p, Saving(pc.id, pc.current, Applied(r.transition), EventCall(pc.lost, pc.loadedAt)))
  }

  /** One claimed instance of a sweep: an error aborts the sweep, Ignore clears the deadline. */
  function AfterFire(w: World, p: nat, pc: Pc, r: Reaction): World
    requires pc.Firing?
  {
    if pc.due == [] || r.Errs? then Stop(w, p)
    else
      var inst := pc.due[0];
      var deed := if r.transition.Ignore? then DeadlineCleared else Applied(r.transition);
      Goto(w, p, Saving(inst.id, Some(inst), deed, SweepCall(pc.due[1..])))
  }

  /** `Start` proposed although an instance was loaded: it saves at version 0 and can only lose. */
  predicate Restarts(pc: Pc)
    requires pc.Saving?
  {
    pc.deed.Applied? && pc.deed.transition.Start? && pc.base.Some?
  }

  function AfterSave(w: World, p: nat, pc: Pc): World
    requires pc.Saving? && Proposable(pc.base, pc.deed)
  {
    var inst := Proposal(pc.id, pc.base, pc.deed);
    if SaveVerdict(w.rows, inst).Saved? then
      Goto(w.(rows := RowsAfterSave(w.rows, inst),
              log := w.log + [Entry(pc.id, pc.deed, inst.version, DeedCommands(pc.deed))]),
           p, Enqueueing(|w.log|, 0, pc.call))
    else if pc.call.EventCall? then
      var lost := pc.call.lost + [Window(pc.call.loadedAt, |w.log|, Restarts(pc))];
      if |lost| < MAX_CONFLICT_RETRIES then Goto(w, p, Loading(pc.id, lost))
      else Stop(w, p).(gaveUp := w.gaveUp + [GaveUp(pc.id, lost)])
    else
      Stop(w, p)
  }

  function AfterInsert(w: World, p: nat, pc: Pc): World
    requires pc.Enqueueing? && pc.ticket < |w.log|
  {
    var commands := w.log[pc.ticket].commands;
    if pc.next < |commands| then
      Goto(w.(outbox := w.outbox + [Queued(pc.ticket, commands[pc.next])]), p, pc.(next := pc.next + 1))
    else
      Resume(w, p, pc.call)
  }

  predicate MidBatch(w: World, pc: Pc) {
    pc.Enqueueing? && pc.ticket < |w.log| && pc.next < |w.log[pc.ticket].commands|
  }

  function AfterCrash(w: World, p: nat, pc: Pc): World {
    Stop(if MidBatch(w, pc) then w.(dropped := w.dropped + {pc.ticket}) else w, p)
  }

  ghost function Next(w: World, a: Action): World {
    match a
    case Handle(p, id) => if p in w.procs then w else Goto(w, p, Loading(id, []))
    case Sweep(_, _, _, _, _) => if CanSweep(w, a) then Goto(w, a.p, Claiming(a.now, a.lease, a.picked, [])) else w
    case ClaimRow(p) => if p in w.procs && w.procs[p].Claiming? then AfterClaim(w, p, w.procs[p]) else w
    case Load(p) =>
      if p in w.procs && w.procs[p].Loading? then
        Goto(w, p, Reacting(w.procs[p].id, Row(w.rows, w.procs[p].id), w.procs[p].lost, |w.log|))
      else w
    case React(p, r) =>
      if p in w.procs && w.procs[p].Reacting? then AfterReact(w, p, w.procs[p], r)
      else if p in w.procs && w.procs[p].Firing? then AfterFire(w, p, w.procs[p], r)
      else w
    case Save(p) =>
      if p in w.procs && w.procs[p].Saving? && Unlocked(w) && Proposable(w.procs[p].base, w.procs[p].deed)
      then AfterSave(w, p, w.procs[p]) else w
    case Insert(p) =>
      if p in w.procs && w.procs[p].Enqueueing? && w.procs[p].ticket < |w.log|
      then AfterInsert(w, p, w.procs[p]) else w
    case InsertFails(p) =>
      if p in w.procs && MidBatch(w, w.procs[p]) then AfterCrash(w, p, w.procs[p]) else w
    case Crash(p) =>
      if p in w.procs then AfterCrash(w, p, w.procs[p]) else w
  }

  const EMPTY := World(map[], map[], [], [], {}, [])

  ghost function RunFrom(w: World, acts: seq<Action>): World {
    if acts == [] then w else Next(RunFrom(w, acts[..|acts| - 1]), acts[|acts| - 1])
  }

  // ---------------------------------------------------------------- reference history

  predicate Writes(e: Entry) {
    !e.deed.FailedUnstored?
  }

  /** What one winning line means for the row before it, whatever copy its author worked on. */
  function Evolve(row: Option<Instance>, e: Entry): Option<Instance> {
    var v := VersionOf(row) + 1;
    match e.deed
    case FailedUnstored(_, _) => row
    case DeadlineCleared => if row.Some? then Some(row.value.(deadline := None, version := v)) else None
    case LeaseTaken(now, lease) => if row.Some? then Some(row.value.(deadline := Some(now + lease), version := v)) else None
    case Applied(t) =>
      match t
      case Ignore => row
      case Start(s, _, d) => Some(Instance(e.id, s, Running, d, v))
      case Advance(s, _, d) => Some(Instance(e.id, s, Running, d, v))
      case Complete(s, _) => Some(Instance(e.id, s, Completed, None, v))
      case Fail(_) => if row.Some? then Some(row.value.(status := Failed, deadline := None, version := v)) else None
  }

  /** The row a history describes: the fold of that saga's winning lines in order. */
  function Replay(log: seq<Entry>, id: Id): Option<Instance> {
    if log == [] then None
    else
      var n := |log| - 1;
      if log[n].id == id then Evolve(Replay(log[..n], id), log[n]) else Replay(log[..n], id)
  }

  /** Successful saves plus claims of one saga. */
  function WriteCount(log: seq<Entry>, id: Id): nat {
    if log == [] then 0
    else
      var n := |log| - 1;
      WriteCount(log[..n], id) + (if log[n].id == id && Writes(log[n]) then 1 else 0)
  }

  /**
   * A line is justified by the row it landed on: computed from exactly that
   * version, on a running or absent saga, and emitting its own transition's
   * commands; a start only creates; a claim only takes an elapsed deadline.
   */
  ghost predicate Justified(before: Option<Instance>, e: Entry) {
    Writes(e) ==>
      && e.seen == VersionOf(before)
      && (e.deed.Applied? ==> !e.deed.transition.Ignore? && e.commands == e.deed.transition.commands)
      && (!e.deed.Applied? ==> e.commands == [])
      && (before.Some? ==> before.value.status.Running? && before.value.id == e.id)
      && (e.deed.Applied? ==> Proposable(before, e.deed))
      && (e.deed.Applied? && e.deed.transition.Start? ==> before.None?)
      && (!e.deed.Applied? ==> before.Some?)
      && (e.deed.LeaseTaken? ==> IsDue(before.value, e.deed.now))
  }

  /** A line without a write comes from a `Fail`, with its commands, whose author had loaded no instance. */
  ghost predicate UnstoredJustified(log: seq<Entry>, e: Entry) {
    e.deed.FailedUnstored? ==>
      && e.deed.transition.Fail? && e.commands == e.deed.transition.commands
      && e.deed.loadedAt <= |log| && Replay(log[..e.deed.loadedAt], e.id).None?
  }

  ghost predicate JustifiedLog(log: seq<Entry>) {
    forall i :: 0 <= i < |log| ==> Justified(Replay(log[..i], log[i].id), log[i])
  }

  ghost predicate UnstoredLog(log: seq<Entry>) {
    forall i :: 0 <= i < |log| ==> UnstoredJustified(log[..i], log[i])
  }

  lemma PrefixIsJustified(log: seq<Entry>, n: nat)
    requires JustifiedLog(log) && n <= |log|
    ensures JustifiedLog(log[..n])
  {
    forall i | 0 <= i < n ensures Justified(Replay(log[..n][..i], log[..n][i].id), log[..n][i]) {
      assert log[..n][..i] == log[..i];
    }
  }

  ghost predicate HistoryInv(rows: Rows, log: seq<Entry>) {
    && WellKeyed(rows)
    && JustifiedLog(log) && UnstoredLog(log)
    && (forall id :: Row(rows, id) == Replay(log, id))
  }

  lemma AppendToHistory(log: seq<Entry>, e: Entry)
    requires JustifiedLog(log) && UnstoredLog(log) && Justified(Replay(log, e.id), e) && UnstoredJustified(log, e)
    ensures JustifiedLog(log + [e]) && UnstoredLog(log + [e])
    ensures forall id :: Replay(log + [e], id) == if id == e.id then Evolve(Replay(log, id), e) else Replay(log, id)
  {
    var log' := log + [e];
    assert log'[..|log|] == log;
    forall i | 0 <= i < |log'|
      ensures Justified(Replay(log'[..i], log'[i].id), log'[i]) && UnstoredJustified(log'[..i], log'[i])
    {
      if i < |log| {
        assert log'[..i] == log[..i];
      }
    }
  }

  // ---------------------------------------------------------------- the copies processes hold

  /** A copy a process holds: at the stored version it is the stored row, up to the deadline. */
  ghost predicate Seen(rows: Rows, copy: Instance) {
    && copy.id in rows
    && 1 <= copy.version <= rows[copy.id].version
    && (copy.version == rows[copy.id].version ==> copy == rows[copy.id].(deadline := copy.deadline))
  }

  ghost predicate HeldCopy(rows: Rows, copy: Instance) {
    Seen(rows, copy) && copy.status.Running?
  }

  ghost predicate HeldCopies(rows: Rows, copies: seq<Instance>) {
    forall i :: 0 <= i < |copies| ==> HeldCopy(rows, copies[i])
  }

  ghost predicate CallOk(rows: Rows, call: Call) {
    call.SweepCall? ==> HeldCopies(rows, call.rest)
  }

  ghost predicate Claimable(rows: Rows, picked: seq<Id>, now: int) {
    Distinct(picked) && forall i :: 0 <= i < |picked| ==> picked[i] in rows && IsDue(rows[picked[i]], now)
  }

  ghost predicate PcOk(rows: Rows, pc: Pc) {
    match pc
    case Loading(_, _) => true
    case Reacting(id, current, _, _) => current.Some? ==> current.value.id == id && Seen(rows, current.value)
    case Claiming(now, _, rest, claimed) => Claimable(rows, rest, now) && HeldCopies(rows, claimed)
    case Firing(due) => HeldCopies(rows, due)
    case Saving(id, base, deed, call) =>
      && Proposable(base, deed)
      && (base.Some? ==> base.value.id == id && HeldCopy(rows, base.value))
      && CallOk(rows, call)
    case Enqueueing(_, _, call) => CallOk(rows, call)
  }

  ghost predicate PcInv(w: World) {
    && (forall p :: p in w.procs ==> PcOk(w.rows, w.procs[p]))
    && (forall p, q :: p in w.procs && q in w.procs && w.procs[p].Claiming? && w.procs[q].Claiming? ==> p == q)
  }

  /** Rows only ever move forward, one version at a time, and never disappear. */
  ghost predicate Grows(rows: Rows, rows': Rows) {
    forall id :: id in rows ==> id in rows' && (rows'[id] == rows[id] || rows[id].version < rows'[id].version)
  }

  lemma PcOkStable(rows: Rows, rows': Rows, pc: Pc)
    requires PcOk(rows, pc) && Grows(rows, rows') && !pc.Claiming?
    ensures PcOk(rows', pc)
  {
  }

  lemma {:induction false} VersionCountsWrites(log: seq<Entry>, id: Id)
    requires JustifiedLog(log)
    ensures VersionOf(Replay(log, id)) == WriteCount(log, id)
  {
    if log != [] {
      var n := |log| - 1;
      PrefixIsJustified(log, n);
      VersionCountsWrites(log[..n], id);
    }
  }

  // ---------------------------------------------------------------- what processes have read

  /** Attempts follow each other, and each lost by restarting a stored saga or to a write inside its own window. */
  ghost predicate LostOk(log: seq<Entry>, id: Id, lost: seq<Window>) {
    && (forall i :: 0 <= i < |lost| ==> lost[i].loadedAt <= lost[i].lostAt <= |log|)
    && (forall i :: 0 <= i < |lost| && !lost[i].restart ==>
          WriteCount(log[..lost[i].loadedAt], id) < WriteCount(log[..lost[i].lostAt], id))
    && (forall i, j :: 0 <= i < j < |lost| ==> lost[i].lostAt <= lost[j].loadedAt)
  }

  /** An attempt works from the row exactly as the history had it at the load. */
  ghost predicate ReadAt(log: seq<Entry>, id: Id, row: Option<Instance>, lost: seq<Window>, loadedAt: nat) {
    && |lost| < MAX_CONFLICT_RETRIES && LostOk(log, id, lost)
    && loadedAt <= |log| && row == Replay(log[..loadedAt], id)
    && (forall i :: 0 <= i < |lost| ==> lost[i].lostAt <= loadedAt)
  }

  ghost predicate PcReadOk(log: seq<Entry>, pc: Pc) {
    match pc
    case Loading(id, lost) => |lost| < MAX_CONFLICT_RETRIES && LostOk(log, id, lost)
    case Reacting(id, current, lost, loadedAt) => ReadAt(log, id, current, lost, loadedAt)
    case Saving(id, base, _, call) => call.EventCall? ==> ReadAt(log, id, base, call.lost, call.loadedAt)
    case _ => true
  }

  ghost predicate ReadInv(w: World) {
    && (forall p :: p in w.procs ==> PcReadOk(w.log, w.procs[p]))
    && (forall i :: 0 <= i < |w.gaveUp| ==> |w.gaveUp[i].lost| == MAX_CONFLICT_RETRIES && LostOk(w.log, w.gaveUp[i].id, w.gaveUp[i].lost))
  }

  lemma LostOkStable(log: seq<Entry>, log': seq<Entry>, id: Id, lost: seq<Window>)
    requires LostOk(log, id, lost) && log <= log'
    ensures LostOk(log', id, lost)
  {
    forall i | 0 <= i < |lost|
      ensures log'[..lost[i].loadedAt] == log[..lost[i].loadedAt] && log'[..lost[i].lostAt] == log[..lost[i].lostAt]
    {
    }
  }

  lemma PcReadStable(log: seq<Entry>, log': seq<Entry>, pc: Pc)
    requires PcReadOk(log, pc) && log <= log'
    ensures PcReadOk(log', pc)
  {
    match pc {
      case Loading(id, lost) => LostOkStable(log, log', id, lost);
      case Reacting(id, _, lost, loadedAt) =>
        LostOkStable(log, log', id, lost);
        assert log'[..loadedAt] == log[..loadedAt];
      case Saving(id, _, _, call) =>
        if call.EventCall? {
          LostOkStable(log, log', id, call.lost);
          assert log'[..call.loadedAt] == log[..call.loadedAt];
        }
      case _ =>
    }
  }

  /** A step of process `p` keeps what the others have read, since the history only grows. */
  lemma StepKeepsReads(w: World, w': World, p: nat)
    requires ReadInv(w) && w.log <= w'.log
    requires forall q :: q != p && q in w'.procs ==> q in w.procs && w'.procs[q] == w.procs[q]
    requires p in w'.procs ==> PcReadOk(w'.log, w'.procs[p])
    requires forall g :: g in w'.gaveUp ==>
               g in w.gaveUp || (|g.lost| == MAX_CONFLICT_RETRIES && LostOk(w'.log, g.id, g.lost))
    ensures ReadInv(w')
  {
    forall q | q in w'.procs && q != p ensures PcReadOk(w'.log, w'.procs[q]) {
      PcReadStable(w.log, w'.log, w.procs[q]);
    }
    forall g | g in w.gaveUp ensures |g.lost| == MAX_CONFLICT_RETRIES && LostOk(w'.log, g.id, g.lost) {
      LostOkStable(w.log, w'.log, g.id, g.lost);
    }
    forall i | 0 <= i < |w'.gaveUp|
      ensures |w'.gaveUp[i].lost| == MAX_CONFLICT_RETRIES && LostOk(w'.log, w'.gaveUp[i].id, w'.gaveUp[i].lost)
    {
      assert w'.gaveUp[i] in w'.gaveUp;
    }
  }

  lemma {:induction false} WritesOnlyGrow(log: seq<Entry>, id: Id, n: nat)
    requires n <= |log|
    ensures WriteCount(log[..n], id) <= WriteCount(log, id)
  {
    if n < |log| {
      assert log[..|log| - 1][..n] == log[..n];
      WritesOnlyGrow(log[..|log| - 1], id, n);
    } else {
      assert log[..n] == log;
    }
  }

  /** A save that lost without restarting had another write inside its window. */
  lemma LostSaveHadAWrite(w: World, p: nat)
    requires Inv(w) && p in w.procs && w.procs[p].Saving? && w.procs[p].call.EventCall?
    requires SaveVerdict(w.rows, Proposal(w.procs[p].id, w.procs[p].base, w.procs[p].deed)).Conflict?
    ensures var pc := w.procs[p];
            LostOk(w.log, pc.id, pc.call.lost + [Window(pc.call.loadedAt, |w.log|, Restarts(pc))])
  {
    var pc := w.procs[p];
    assert PcReadOk(w.log, pc) && PcOk(w.rows, pc);
    var n := pc.call.loadedAt;
    assert w.log[..|w.log|] == w.log;
    if !Restarts(pc) {
      ProposalVersion(w.rows, pc);
      assert Row(w.rows, pc.id) == Replay(w.log, pc.id);
      VersionCountsWrites(w.log, pc.id);
      PrefixIsJustified(w.log, n);
      VersionCountsWrites(w.log[..n], pc.id);
      WritesOnlyGrow(w.log, pc.id, n);
    }
  }

  // ---------------------------------------------------------------- batches

  /** The commands of one batch, in the order they reached the outbox. */
  function Sent(outbox: seq<Queued>, ticket: nat): seq<Command> {
    if outbox == [] then []
    else
      var n := |outbox| - 1;
      Sent(outbox[..n], ticket) + (if outbox[n].ticket == ticket then [outbox[n].command] else [])
  }

  ghost predicate Holds(w: World, p: nat, ticket: nat) {
    p in w.procs && w.procs[p].Enqueueing? && w.procs[p].ticket == ticket
  }

  ghost predicate Unheld(w: World, ticket: nat) {
    forall p :: !Holds(w, p, ticket)
  }

  ghost predicate BatchInv(w: World) {
    && (forall p :: p in w.procs && w.procs[p].Enqueueing? ==>
          var t, n := w.procs[p].ticket, w.procs[p].next;
          t < |w.log| && n <= |w.log[t].commands| && Sent(w.outbox, t) == w.log[t].commands[..n])
    && (forall p, q, t :: Holds(w, p, t) && Holds(w, q, t) ==> p == q)
    && (forall t :: 0 <= t < |w.log| ==> Sent(w.outbox, t) <= w.log[t].commands)
    && (forall t :: 0 <= t < |w.log| && t !in w.dropped && Unheld(w, t) ==> Sent(w.outbox, t) == w.log[t].commands)
    && (forall t: nat :: |w.log| <= t ==> Sent(w.outbox, t) == [])
    && (forall t :: t in w.dropped ==> t < |w.log|)
  }

  ghost predicate Inv(w: World) {
    HistoryInv(w.rows, w.log) && PcInv(w) && ReadInv(w) && BatchInv(w)
  }

  // ---------------------------------------------------------------- what every step keeps

  /** A winning save was computed from the very version it replaces, so it means the same on the stored row. */
  lemma WinnerEvolvesTheRow(rows: Rows, id: Id, base: Option<Instance>, deed: Deed)
    requires WellKeyed(rows) && Proposable(base, deed)
    requires base.Some? ==> base.value.id == id && HeldCopy(rows, base.value)
    requires SaveVerdict(rows, Proposal(id, base, deed)).Saved?
    ensures var inst := Proposal(id, base, deed);
            var e := Entry(id, deed, inst.version, DeedCommands(deed));
            && inst.id == id
            && Justified(Row(rows, id), e)
            && Evolve(Row(rows, id), e) == Some(inst.(version := inst.version + 1))
  {
  }

  lemma SaveKeepsHistory(rows: Rows, log: seq<Entry>, id: Id, base: Option<Instance>, deed: Deed)
    requires HistoryInv(rows, log) && Proposable(base, deed)
    requires base.Some? ==> base.value.id == id && HeldCopy(rows, base.value)
    requires SaveVerdict(rows, Proposal(id, base, deed)).Saved?
    ensures var inst := Proposal(id, base, deed);
            var e := Entry(id, deed, inst.version, DeedCommands(deed));
            && HistoryInv(RowsAfterSave(rows, inst), log + [e])
            && Grows(rows, RowsAfterSave(rows, inst))
  {
    var inst := Proposal(id, base, deed);
    var e := Entry(id, deed, inst.version, DeedCommands(deed));
    WinnerEvolvesTheRow(rows, id, base, deed);
    assert Row(rows, id) == Replay(log, id);
    AppendToHistory(log, e);
    var rows' := RowsAfterSave(rows, inst);
    assert rows' == rows[id := inst.(version := inst.version + 1)];
    forall i ensures Row(rows', i) == Replay(log + [e], i) {
      assert Row(rows, i) == Replay(log, i);
    }
  }

  lemma OneClaimKeepsHistory(rows: Rows, log: seq<Entry>, id: Id, now: int, lease: int)
    requires HistoryInv(rows, log) && id in rows && IsDue(rows[id], now)
    ensures var e := Entry(id, LeaseTaken(now, lease), rows[id].version, []);
            HistoryInv(rows[id := ClaimedRow(rows[id], now + lease)], log + [e])
  {
    var e := Entry(id, LeaseTaken(now, lease), rows[id].version, []);
    assert Row(rows, id) == Replay(log, id);
    AppendToHistory(log, e);
    var rows' := rows[id := ClaimedRow(rows[id], now + lease)];
    forall i ensures Row(rows', i) == Replay(log + [e], i) {
      assert Row(rows, i) == Replay(log, i);
    }
  }

  lemma DueIsClaimable(rows: Rows, now: int, limit: nat, picked: seq<Id>)
    requires SoonestDue(rows, now, limit, picked)
    ensures Claimable(rows, picked, now)
  {
    forall i | 0 <= i < |picked| ensures picked[i] in rows && IsDue(rows[picked[i]], now) {
      assert picked[i] in DueIds(rows, now);
    }
  }

  /** Claiming one row keeps the rest claimable and adds the claimed row, up to its deadline, to the copies. */
  lemma ClaimKeepsOwnCopies(w: World, p: nat)
    requires WellKeyed(w.rows) && p in w.procs && w.procs[p].Claiming? && PcOk(w.rows, w.procs[p])
    ensures var w' := AfterClaim(w, p, w.procs[p]); PcOk(w'.rows, w'.procs[p]) && Grows(w.rows, w'.rows)
  {
    var pc, w' := w.procs[p], AfterClaim(w, p, w.procs[p]);
    if pc.rest != [] {
      assert forall i :: 0 <= i < |pc.rest| - 1 ==> pc.rest[1..][i] == pc.rest[i + 1];
      forall i | 0 <= i < |pc.claimed| ensures HeldCopy(w'.rows, pc.claimed[i]) {
        assert HeldCopy(w.rows, pc.claimed[i]);
      }
    }
  }

  lemma ClaimKeepsCopies(w: World, p: nat)
    requires WellKeyed(w.rows) && PcInv(w) && p in w.procs && w.procs[p].Claiming?
    ensures PcInv(AfterClaim(w, p, w.procs[p]))
  {
    var w' := AfterClaim(w, p, w.procs[p]);
    ClaimKeepsOwnCopies(w, p);
    forall q | q in w'.procs && q != p ensures PcOk(w'.rows, w'.procs[q]) {
      PcOkStable(w.rows, w'.rows, w.procs[q]);
    }
  }

  lemma ClaimKeepsHistory(w: World, p: nat)
    requires HistoryInv(w.rows, w.log) && p in w.procs && w.procs[p].Claiming? && PcOk(w.rows, w.procs[p])
    ensures var w' := AfterClaim(w, p, w.procs[p]); HistoryInv(w'.rows, w'.log)
  {
    var pc := w.procs[p];
    if pc.rest != [] {
      OneClaimKeepsHistory(w.rows, w.log, pc.rest[0], pc.now, pc.lease);
    }
  }

  lemma ClaimKeepsBatches(w: World, p: nat)
    requires BatchInv(w) && p in w.procs && w.procs[p].Claiming?
    ensures BatchInv(AfterClaim(w, p, w.procs[p]))
  {
    LongerLogKeepsBatches(w, AfterClaim(w, p, w.procs[p]), p);
  }

  lemma ClaimKeepsInv(w: World, p: nat)
    requires Inv(w) && p in w.procs && w.procs[p].Claiming?
    ensures var w' := AfterClaim(w, p, w.procs[p]); Inv(w') && Grows(w.rows, w'.rows)
  {
    ClaimKeepsOwnCopies(w, p);
    ClaimKeepsCopies(w, p);
    ClaimKeepsHistory(w, p);
    StepKeepsReads(w, AfterClaim(w, p, w.procs[p]), p);
    ClaimKeepsBatches(w, p);
  }

  lemma SweepKeepsInv(w: World, a: Action)
    requires Inv(w) && CanSweep(w, a)
    ensures Inv(Next(w, a))
  {
    DueIsClaimable(w.rows, a.now, a.limit, a.picked);
    StepKeepsReads(w, Next(w, a), a.p);
    LongerLogKeepsBatches(w, Next(w, a), a.p);
  }

  /** Appending command-free lines, with process `p` not enqueueing before or after, keeps every batch. */
  lemma LongerLogKeepsBatches(w: World, w': World, p: nat)
    requires BatchInv(w) && w.log <= w'.log
    requires w'.outbox == w.outbox && w'.dropped == w.dropped
    requires p in w.procs ==> !w.procs[p].Enqueueing?
    requires p in w'.procs ==> !w'.procs[p].Enqueueing?
    requires forall q :: q != p ==> (q in w.procs <==> q in w'.procs)
    requires forall q :: q != p && q in w.procs ==> w'.procs[q] == w.procs[q]
    requires forall t :: |w.log| <= t < |w'.log| ==> w'.log[t].commands == []
    ensures BatchInv(w')
  {
    forall t | 0 <= t < |w'.log| && t !in w'.dropped && Unheld(w', t)
      ensures Sent(w'.outbox, t) == w'.log[t].commands
    {
      if t < |w.log| {
        forall q ensures !Holds(w, q, t) {
          assert !Holds(w', q, t);
        }
      }
    }
    forall q, r, t | Holds(w', q, t) && Holds(w', r, t) ensures q == r {
      assert Holds(w, q, t) && Holds(w, r, t);
    }
  }

  /** A new line whose author holds its ticket with nothing sent yet. */
  lemma FreshBatch(w: World, w': World, p: nat, e: Entry, call: Call)
    requires BatchInv(w) && p in w.procs && !w.procs[p].Enqueueing?
    requires w'.log == w.log + [e] && w'.outbox == w.outbox && w'.dropped == w.dropped
    requires w'.procs == w.procs[p := Enqueueing(|w.log|, 0, call)]
    ensures BatchInv(w')
  {
    forall q, r, t | Holds(w', q, t) && Holds(w', r, t) ensures q == r {
      if q != p && r != p {
        assert Holds(w, q, t) && Holds(w, r, t);
      }
    }
    forall t | 0 <= t < |w'.log| && t !in w'.dropped && Unheld(w', t)
      ensures Sent(w'.outbox, t) == w'.log[t].commands
    {
      assert !Holds(w', p, t);
      forall q ensures !Holds(w, q, t) {
        assert !Holds(w', q, t);
      }
    }
  }

  lemma UnstoredFailKeepsBatches(w: World, p: nat, t: Transition)
    requires BatchInv(w) && ReadInv(w) && p in w.procs && w.procs[p].Reacting? && w.procs[p].current.None? && t.Fail?
    ensures var w' := AfterReact(w, p, w.procs[p], Yields(t)); BatchInv(w') && ReadInv(w')
  {
    var pc := w.procs[p];
    var w' := AfterReact(w, p, pc, Yields(t));
    StepKeepsReads(w, w', p);
    FreshBatch(w, w', p, UnstoredFail(pc, t), EventCall(pc.lost, pc.loadedAt));
  }

  lemma ReactKeepsCopies(w: World, p: nat, r: Reaction)
    requires PcInv(w) && p in w.procs && w.procs[p].Reacting?
    ensures PcInv(AfterReact(w, p, w.procs[p], r))
  {
  }

  lemma UnstoredFailKeepsHistory(rows: Rows, log: seq<Entry>, pc: Pc, t: Transition)
    requires HistoryInv(rows, log) && pc.Reacting? && pc.current.None? && PcReadOk(log, pc) && t.Fail?
    ensures HistoryInv(rows, log + [UnstoredFail(pc, t)])
  {
    var e := UnstoredFail(pc, t);
    AppendToHistory(log, e);
    forall id ensures Row(rows, id) == Replay(log + [e], id) {
      assert Row(rows, id) == Replay(log, id);
    }
  }

  lemma UnstoredFailKeepsInv(w: World, p: nat, t: Transition)
    requires Inv(w) && p in w.procs && w.procs[p].Reacting? && w.procs[p].current.None? && t.Fail?
    ensures Inv(AfterReact(w, p, w.procs[p], Yields(t)))
  {
    var pc := w.procs[p];
    assert PcReadOk(w.log, pc);
    UnstoredFailKeepsHistory(w.rows, w.log, pc, t);
    assert AfterReact(w, p, pc, Yields(t)).log == w.log + [UnstoredFail(pc, t)];
    ReactKeepsCopies(w, p, Yields(t));
    UnstoredFailKeepsBatches(w, p, t);
  }

  lemma ReactKeepsInv(w: World, p: nat, r: Reaction)
    requires Inv(w) && p in w.procs && w.procs[p].Reacting?
    ensures Inv(AfterReact(w, p, w.procs[p], r)) && AfterReact(w, p, w.procs[p], r).rows == w.rows
  {
    var pc := w.procs[p];
    if r.Yields? && r.transition.Fail? && pc.current.None? {
      UnstoredFailKeepsInv(w, p, r.transition);
    } else {
      ReactKeepsCopies(w, p, r);
      assert PcReadOk(w.log, pc);
      StepKeepsReads(w, AfterReact(w, p, pc, r), p);
      LongerLogKeepsBatches(w, AfterReact(w, p, pc, r), p);
    }
  }

  lemma FireKeepsInv(w: World, p: nat, r: Reaction)
    requires Inv(w) && p in w.procs && w.procs[p].Firing?
    ensures Inv(AfterFire(w, p, w.procs[p], r)) && AfterFire(w, p, w.procs[p], r).rows == w.rows
  {
    StepKeepsReads(w, AfterFire(w, p, w.procs[p], r), p);
    LongerLogKeepsBatches(w, AfterFire(w, p, w.procs[p], r), p);
  }

  lemma LosingKeepsReads(w: World, p: nat)
    requires Inv(w) && p in w.procs && w.procs[p].Saving?
    requires SaveVerdict(w.rows, Proposal(w.procs[p].id, w.procs[p].base, w.procs[p].deed)).Conflict?
    ensures ReadInv(AfterSave(w, p, w.procs[p]))
  {
    assert PcReadOk(w.log, w.procs[p]);
    if w.procs[p].call.EventCall? {
      LostSaveHadAWrite(w, p);
    }
    StepKeepsReads(w, AfterSave(w, p, w.procs[p]), p);
  }

  predicate Wins(w: World, pc: Pc)
    requires pc.Saving? && Proposable(pc.base, pc.deed)
  {
    SaveVerdict(w.rows, Proposal(pc.id, pc.base, pc.deed)).Saved?
  }

  lemma WinningKeepsHistory(w: World, p: nat)
    requires HistoryInv(w.rows, w.log) && p in w.procs && w.procs[p].Saving? && PcOk(w.rows, w.procs[p]) && Wins(w, w.procs[p])
    ensures var w' := AfterSave(w, p, w.procs[p]); HistoryInv(w'.rows, w'.log) && Grows(w.rows, w'.rows)
  {
    var pc := w.procs[p];
    SaveKeepsHistory(w.rows, w.log, pc.id, pc.base, pc.deed);
  }

  lemma WinningKeepsCopies(w: World, p: nat)
    requires PcInv(w) && Unlocked(w) && p in w.procs && w.procs[p].Saving? && PcOk(w.rows, w.procs[p]) && Wins(w, w.procs[p])
    requires Grows(w.rows, AfterSave(w, p, w.procs[p]).rows)
    ensures PcInv(AfterSave(w, p, w.procs[p]))
  {
    var w' := AfterSave(w, p, w.procs[p]);
    forall q | q in w'.procs ensures PcOk(w'.rows, w'.procs[q]) {
      PcOkStable(w.rows, w'.rows, w.procs[q]);
    }
  }

  lemma WinningKeepsBatches(w: World, p: nat)
    requires BatchInv(w) && ReadInv(w) && p in w.procs && w.procs[p].Saving?
    requires Proposable(w.procs[p].base, w.procs[p].deed) && Wins(w, w.procs[p])
    ensures BatchInv(AfterSave(w, p, w.procs[p])) && ReadInv(AfterSave(w, p, w.procs[p]))
  {
    var pc, w' := w.procs[p], AfterSave(w, p, w.procs[p]);
    StepKeepsReads(w, w', p);
    FreshBatch(w, w', p, w'.log[|w.log|], pc.call);
  }

  lemma LosingKeepsInv(w: World, p: nat)
    requires Inv(w) && p in w.procs && w.procs[p].Saving? && PcOk(w.rows, w.procs[p]) && !Wins(w, w.procs[p])
    ensures Inv(AfterSave(w, p, w.procs[p])) && AfterSave(w, p, w.procs[p]).rows == w.rows
  {
    LosingKeepsReads(w, p);
    LongerLogKeepsBatches(w, AfterSave(w, p, w.procs[p]), p);
  }

  lemma SaveKeepsInv(w: World, p: nat)
    requires Inv(w) && p in w.procs && w.procs[p].Saving? && Unlocked(w)
    ensures Inv(AfterSave(w, p, w.procs[p])) && Grows(w.rows, AfterSave(w, p, w.procs[p]).rows)
  {
    assert PcOk(w.rows, w.procs[p]);
    if Wins(w, w.procs[p]) {
      WinningKeepsHistory(w, p);
      WinningKeepsCopies(w, p);
      WinningKeepsBatches(w, p);
    } else {
      LosingKeepsInv(w, p);
    }
  }

  lemma InsertKeepsCopies(w: World, p: nat)
    requires PcInv(w) && p in w.procs && w.procs[p].Enqueueing? && w.procs[p].ticket < |w.log|
    ensures PcInv(AfterInsert(w, p, w.procs[p]))
  {
    assert CallOk(w.rows, w.procs[p].call);
  }

  lemma InsertKeepsInv(w: World, p: nat)
    requires Inv(w) && p in w.procs && w.procs[p].Enqueueing?
    ensures Inv(AfterInsert(w, p, w.procs[p])) && AfterInsert(w, p, w.procs[p]).rows == w.rows
  {
    InsertKeepsCopies(w, p);
    StepKeepsReads(w, AfterInsert(w, p, w.procs[p]), p);
    if MidBatch(w, w.procs[p]) {
      SendKeepsBatches(w, p);
    } else {
      ReleaseKeepsBatches(w, AfterInsert(w, p, w.procs[p]), p);
    }
  }

  lemma SendKeepsBatches(w: World, p: nat)
    requires BatchInv(w) && p in w.procs && w.procs[p].Enqueueing? && MidBatch(w, w.procs[p])
    ensures BatchInv(AfterInsert(w, p, w.procs[p]))
  {
    var pc := w.procs[p];
    var w' := AfterInsert(w, p, pc);
    var commands := w.log[pc.ticket].commands;
    assert w'.outbox[..|w.outbox|] == w.outbox;
    assert commands[..pc.next + 1] == commands[..pc.next] + [commands[pc.next]];
    assert forall t :: t != pc.ticket ==> Sent(w'.outbox, t) == Sent(w.outbox, t);
    assert Holds(w, p, pc.ticket);
    assert forall q, t :: Holds(w', q, t) <==> Holds(w, q, t);
    forall q | q in w.procs && w.procs[q].Enqueueing? && q != p ensures w.procs[q].ticket != pc.ticket {
      assert Holds(w, q, w.procs[q].ticket);
    }
    forall t | Unheld(w', t) ensures Unheld(w, t) && t != pc.ticket {
      assert !Holds(w', p, t);
      forall q ensures !Holds(w, q, t) {
        assert !Holds(w', q, t);
      }
    }
  }

  /** Process `p` lets go of its ticket, having sent it all or having it recorded as dropped. */
  lemma ReleaseKeepsBatches(w: World, w': World, p: nat)
    requires BatchInv(w) && p in w.procs
    requires w'.log == w.log && w'.outbox == w.outbox && w.dropped <= w'.dropped
    requires w'.procs == w.procs - {p} || exists due :: w'.procs == w.procs[p := Firing(due)]
    requires MidBatch(w, w.procs[p]) ==> w.procs[p].ticket in w'.dropped
    requires forall t :: t in w'.dropped ==> t < |w.log|
    ensures BatchInv(w')
  {
    assert forall q, t :: Holds(w', q, t) ==> q != p && Holds(w, q, t);
    forall t | 0 <= t < |w'.log| && t !in w'.dropped && Unheld(w', t)
      ensures Sent(w'.outbox, t) == w'.log[t].commands
    {
      if !Holds(w, p, t) {
        forall q ensures !Holds(w, q, t) {
          assert !Holds(w', q, t);
        }
      }
    }
  }

  lemma CrashKeepsInv(w: World, p: nat)
    requires Inv(w) && p in w.procs
    ensures Inv(AfterCrash(w, p, w.procs[p])) && AfterCrash(w, p, w.procs[p]).rows == w.rows
  {
    StepKeepsReads(w, AfterCrash(w, p, w.procs[p]), p);
    ReleaseKeepsBatches(w, AfterCrash(w, p, w.procs[p]), p);
  }

  lemma LoadKeepsInv(w: World, p: nat)
    requires Inv(w) && p in w.procs && w.procs[p].Loading?
    ensures Inv(Next(w, Load(p)))
  {
    var w' := Next(w, Load(p));
    assert PcReadOk(w.log, w.procs[p]) && w.log[..|w.log|] == w.log;
    assert Row(w.rows, w.procs[p].id) == Replay(w.log, w.procs[p].id);
    StepKeepsReads(w, w', p);
    LongerLogKeepsBatches(w, w', p);
  }

  lemma HandleKeepsInv(w: World, p: nat, id: Id)
    requires Inv(w) && p !in w.procs
    ensures Inv(Next(w, Handle(p, id)))
  {
    StepKeepsReads(w, Next(w, Handle(p, id)), p);
    LongerLogKeepsBatches(w, Next(w, Handle(p, id)), p);
  }

  lemma StepKeepsInv(w: World, a: Action)
    requires Inv(w)
    ensures Inv(Next(w, a)) && Grows(w.rows, Next(w, a).rows)
  {
    if Next(w, a) != w {
      match a {
        case Handle(p, id) => HandleKeepsInv(w, p, id);
        case Sweep(_, _, _, _, _) => SweepKeepsInv(w, a);
        case ClaimRow(p) => ClaimKeepsInv(w, p);
        case Load(p) => LoadKeepsInv(w, p);
        case React(p, r) => if w.procs[p].Reacting? { ReactKeepsInv(w, p, r); } else { FireKeepsInv(w, p, r); }
        case Save(p) => SaveKeepsInv(w, p);
        case Insert(p) => InsertKeepsInv(w, p);
        case InsertFails(p) => CrashKeepsInv(w, p);
        case Crash(p) => CrashKeepsInv(w, p);
      }
    }
  }

  lemma {:induction false} RunKeepsInv(w: World, acts: seq<Action>)
    requires Inv(w)
    ensures Inv(RunFrom(w, acts)) && Grows(w.rows, RunFrom(w, acts).rows)
  {
    if acts != [] {
      RunKeepsInv(w, acts[..|acts| - 1]);
      StepKeepsInv(RunFrom(w, acts[..|acts| - 1]), acts[|acts| - 1]);
    }
  }

  // ---------------------------------------------------------------- theorems over every run

  /**
   * No lost update: after any interleaving the stored row is the fold of the
   * winning lines in order, its version counts them, and every line was
   * computed from exactly the version it replaced.
   */
  lemma LinearHistory(acts: seq<Action>, id: Id)
    ensures var w := RunFrom(EMPTY, acts);
            && Row(w.rows, id) == Replay(w.log, id)
            && VersionOf(Row(w.rows, id)) == WriteCount(w.log, id)
            && JustifiedLog(w.log)
  {
    RunKeepsInv(EMPTY, acts);
    VersionCountsWrites(RunFrom(EMPTY, acts).log, id);
  }

  lemma {:induction false} LogOnlyGrows(w: World, more: seq<Action>)
    ensures w.log <= RunFrom(w, more).log
  {
    if more != [] {
      LogOnlyGrows(w, more[..|more| - 1]);
    }
  }

  lemma {:induction false} RunsCompose(w: World, acts: seq<Action>, more: seq<Action>)
    ensures RunFrom(w, acts + more) == RunFrom(RunFrom(w, acts), more)
  {
    if more == [] {
      assert acts + more == acts;
    } else {
      var n := |more| - 1;
      RunsCompose(w, acts, more[..n]);
      assert (acts + more)[..|acts| + n] == acts + more[..n];
    }
  }

  lemma {:induction false} TerminalReplayIsFrozen(log: seq<Entry>, longer: seq<Entry>, id: Id)
    requires log <= longer && JustifiedLog(longer)
    requires Replay(log, id).Some? && !Replay(log, id).value.status.Running?
    ensures Replay(longer, id) == Replay(log, id)
  {
    var n := |longer| - 1;
    if longer != log {
      assert log <= longer[..n];
      PrefixIsJustified(longer, n);
      TerminalReplayIsFrozen(log, longer[..n], id);
      assert Justified(Replay(longer[..n], longer[n].id), longer[n]);
    }
  }

  /** Once Completed or Failed, nothing that follows - events, duplicates, retries, sweeps - changes the row. */
  lemma TerminalIsFrozen(acts: seq<Action>, more: seq<Action>, id: Id)
    requires var row := Row(RunFrom(EMPTY, acts).rows, id); row.Some? && !row.value.status.Running?
    ensures Row(RunFrom(EMPTY, acts + more).rows, id) == Row(RunFrom(EMPTY, acts).rows, id)
  {
    RunsCompose(EMPTY, acts, more);
    LogOnlyGrows(RunFrom(EMPTY, acts), more);
    LinearHistory(acts, id);
    LinearHistory(acts + more, id);
    TerminalReplayIsFrozen(RunFrom(EMPTY, acts).log, RunFrom(EMPTY, acts + more).log, id);
  }

  lemma {:induction false} QueuedIsSent(outbox: seq<Queued>, i: nat)
    requires i < |outbox|
    ensures Sent(outbox, outbox[i].ticket) != []
  {
    if i < |outbox| - 1 {
      QueuedIsSent(outbox[..|outbox| - 1], i);
    }
  }

  /**
   * Where the commands of a line come from: the transition of a save that
   * replaced exactly the version it was computed from, or a `Fail` whose author
   * had found the saga absent.
   */
  ghost predicate FromWinner(log: seq<Entry>, t: nat)
    requires t < |log|
  {
    var e := log[t];
    && (Writes(e) ==> e.seen == VersionOf(Replay(log[..t], e.id)))
    && (e.deed.Applied? ==> !e.deed.transition.Ignore? && e.commands == e.deed.transition.commands)
    && (e.deed.DeadlineCleared? || e.deed.LeaseTaken? ==> e.commands == [])
    && (!Writes(e) ==> e.deed.transition.Fail? && e.commands == e.deed.transition.commands && e.deed.loadedAt <= t && Replay(log[..e.deed.loadedAt], e.id).None?)
  }

  lemma JustifiedIsFromWinner(log: seq<Entry>, t: nat)
    requires JustifiedLog(log) && UnstoredLog(log) && t < |log|
    ensures FromWinner(log, t)
  {
    assert Justified(Replay(log[..t], log[t].id), log[t]) && UnstoredJustified(log[..t], log[t]);
    if log[t].deed.FailedUnstored? {
      assert log[..t][..log[t].deed.loadedAt] == log[..log[t].deed.loadedAt];
    }
  }

  /**
   * Commands come only from winners: every queued command belongs to the batch
   * of one history line, that line is a winning save or a `Fail` on a saga
   * found absent, and what a batch has queued is a prefix of its commands in
   * order, so no command is duplicated or invented.
   */
  lemma CommandsComeFromWinners(acts: seq<Action>)
    ensures var w := RunFrom(EMPTY, acts);
            && (forall i :: 0 <= i < |w.outbox| ==> w.outbox[i].ticket < |w.log|)
            && (forall t :: 0 <= t < |w.log| ==> Sent(w.outbox, t) <= w.log[t].commands && FromWinner(w.log, t))
  {
    RunKeepsInv(EMPTY, acts);
    var w := RunFrom(EMPTY, acts);
    forall i | 0 <= i < |w.outbox| ensures w.outbox[i].ticket < |w.log| {
      QueuedIsSent(w.outbox, i);
    }
    forall t | 0 <= t < |w.log| ensures FromWinner(w.log, t) {
      JustifiedIsFromWinner(w.log, t);
    }
  }

  ghost predicate Reliable(acts: seq<Action>) {
    forall i :: 0 <= i < |acts| ==> !acts[i].Crash? && !acts[i].InsertFails?
  }

  lemma {:induction false} ReliableDropsNothing(acts: seq<Action>)
    requires Reliable(acts)
    ensures RunFrom(EMPTY, acts).dropped == {}
  {
    if acts != [] {
      var init := acts[..|acts| - 1];
      assert forall i :: 0 <= i < |init| ==> init[i] == acts[i];
      ReliableDropsNothing(init);
    }
  }

  /** Without crashes or failed inserts, every batch whose author has moved on is queued exactly once, in full. */
  lemma ReliableRunsQueueEveryBatch(acts: seq<Action>, ticket: nat)
    requires Reliable(acts)
    requires ticket < |RunFrom(EMPTY, acts).log| && Unheld(RunFrom(EMPTY, acts), ticket)
    ensures Sent(RunFrom(EMPTY, acts).outbox, ticket) == RunFrom(EMPTY, acts).log[ticket].commands
  {
    RunKeepsInv(EMPTY, acts);
    ReliableDropsNothing(acts);
  }

  lemma ProposalVersion(rows: Rows, pc: Pc)
    requires WellKeyed(rows) && pc.Saving? && PcOk(rows, pc)
    ensures SaveVerdict(rows, Proposal(pc.id, pc.base, pc.deed)).Saved?
       <==> VersionOf(Row(rows, pc.id)) == VersionOf(pc.base) && !Restarts(pc)
    ensures Proposal(pc.id, pc.base, pc.deed).id == pc.id
    ensures !Restarts(pc) ==> Proposal(pc.id, pc.base, pc.deed).version == VersionOf(pc.base)
  {
  }

  ghost predicate WinsExactly(w: World, p: nat)
    requires p in w.procs && w.procs[p].Saving?
  {
    var pc, w' := w.procs[p], Next(w, Save(p));
    if VersionOf(Row(w.rows, pc.id)) == VersionOf(pc.base) && !Restarts(pc)
    then |w'.log| == |w.log| + 1 && VersionOf(Row(w'.rows, pc.id)) == VersionOf(pc.base) + 1
    else
      && w'.log == w.log && w'.rows == w.rows && w'.outbox == w.outbox
      && (if pc.call.EventCall? && |pc.call.lost| + 1 < 8 then
            && p in w'.procs && w'.procs[p].Loading? && w'.procs[p].id == pc.id
            && |w'.procs[p].lost| == |pc.call.lost| + 1 && w'.gaveUp == w.gaveUp
          else
            && p !in w'.procs
            && (if pc.call.EventCall? then |w'.gaveUp| == |w.gaveUp| + 1 && w'.gaveUp[|w.gaveUp|].id == pc.id else w'.gaveUp == w.gaveUp))
  }

  lemma SavingWinsExactly(w: World, p: nat)
    requires Inv(w) && p in w.procs && w.procs[p].Saving? && Unlocked(w)
    ensures WinsExactly(w, p)
  {
    assert PcOk(w.rows, w.procs[p]);
    ProposalVersion(w.rows, w.procs[p]);
  }

  /**
   * A process that saves (so nobody is claiming) wins exactly when nobody wrote
   * the row since it was read and it is not restarting one. A loser changes
   * nothing; a `handle` call tries again until its eighth loss, a sweep ends.
   */
  lemma SaveWinsExactly(acts: seq<Action>, p: nat)
    requires var w := RunFrom(EMPTY, acts); p in w.procs && w.procs[p].Saving? && Unlocked(w)
    ensures WinsExactly(RunFrom(EMPTY, acts), p)
  {
    RunKeepsInv(EMPTY, acts);
    SavingWinsExactly(RunFrom(EMPTY, acts), p);
  }

  /** Between two points of the history, this saga was at most claimed again, never saved. */
  ghost predicate OnlyClaimed(log: seq<Entry>, i: nat, n: nat)
    requires i < n <= |log|
  {
    forall k :: i < k < n && log[k].id == log[i].id && Writes(log[k]) ==>
      log[k].deed.LeaseTaken? && log[k].deed.lease >= 0
  }

  predicate DueNoSoonerThan(row: Option<Instance>, until: int) {
    row.Some? && row.value.deadline.Some? && until <= row.value.deadline.value
  }

  lemma ClaimsKeepTheLease(row: Option<Instance>, e: Entry, until: int)
    requires Justified(row, e) && DueNoSoonerThan(row, until)
    requires Writes(e) ==> e.deed.LeaseTaken? && e.deed.lease >= 0
    ensures DueNoSoonerThan(Evolve(row, e), until)
  {
  }

  /** Without a save in between, the deadline a claim set only ever moves later. */
  lemma {:induction false} LeaseStands(log: seq<Entry>, i: nat, n: nat)
    requires JustifiedLog(log) && i < n <= |log| && log[i].deed.LeaseTaken? && OnlyClaimed(log, i, n)
    ensures DueNoSoonerThan(Replay(log[..n], log[i].id), log[i].deed.now + log[i].deed.lease)
  {
    var init, e := log[..n - 1], log[n - 1];
    assert log[..n][..n - 1] == init && log[..n][n - 1] == e;
    assert Justified(Replay(init, e.id), e);
    if i < n - 1 {
      LeaseStands(log, i, n - 1);
      if e.id == log[i].id {
        ClaimsKeepTheLease(Replay(init, e.id), e, log[i].deed.now + log[i].deed.lease);
      }
    }
  }

  /** Two claims of one saga with no save between them are at least the first claim's lease apart. */
  lemma ClaimsAreALeaseApart(acts: seq<Action>, i: nat, j: nat)
    requires var log := RunFrom(EMPTY, acts).log;
             && i < j < |log| && log[i].id == log[j].id && log[i].deed.LeaseTaken? && log[j].deed.LeaseTaken?
             && OnlyClaimed(log, i, j)
    ensures var log := RunFrom(EMPTY, acts).log;
            log[i].deed.now + log[i].deed.lease <= log[j].deed.now
  {
    var log := RunFrom(EMPTY, acts).log;
    LinearHistory(acts, log[i].id);
    LeaseStands(log, i, j);
    assert Justified(Replay(log[..j], log[j].id), log[j]);
  }
}
