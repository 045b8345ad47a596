/**
 * `SagaRunner::handle` and `run_due_timeouts` in their own loop form, over the
 * in-memory store. Every await point at which other callers may touch the store
 * is an explicit `Interfere` call whose writes the schedule `others` chooses,
 * so each contract holds for every schedule.
 */
module SagaRunner {
  import opened Common
  import opened SagaStore
  import opened SagaProtocol

  /** What other `handle` calls and sweeps can do to the store between two of this call's steps. */
  datatype OtherWrite =
    | OtherSave(inst: Instance)
    | OtherClaim(now: int, lease: int, limit: nat)

  /** One write of another caller: a save, accepted or refused, or a claim of the soonest due. */
  ghost predicate OneWrite(rows: Rows, write: OtherWrite, rows': Rows) {
    match write
    case OtherSave(inst) => rows' == RowsAfterSave(rows, inst)
    case OtherClaim(now, lease, limit) =>
      exists picked :: SoonestDue(rows, now, limit, picked) && rows' == RowsAfterClaims(rows, picked, now + lease)
  }

  ghost predicate Reaches(rows: Rows, writes: seq<OtherWrite>, rows': Rows) {
    if writes == [] then rows' == rows
    else
      var n := |writes| - 1;
      exists between :: Reaches(rows, writes[..n], between) && OneWrite(between, writes[n], rows')
  }

  datatype ApplyResult = Done | BusinessFailure | Lost(expected: nat, actual: Option<nat>)

  datatype Outcome =
    | ReactFailed(found: Option<Instance>)
    | Ignored(found: Option<Instance>)
    | AlreadyTerminal(found: Option<Instance>)
    | Accepted(found: Option<Instance>, transition: Transition)
    | Rejected(found: Option<Instance>, transition: Transition)
    | Exhausted(expected: nat, actual: Option<nat>)

  /** Each outcome belongs to what the last attempt found and what the saga answered to it. */
  predicate AnswersTo(result: Outcome, answer: Reaction) {
    match result
    case ReactFailed(_) => answer.Errs?
    case Ignored(_) => answer == Yields(Ignore)
    case AlreadyTerminal(found) =>
      answer.Yields? && !answer.transition.Ignore? && found.Some? && !found.value.status.Running?
    case Accepted(found, t) =>
      answer == Yields(t) && !t.Ignore? && !t.Fail? && (found.Some? ==> found.value.status.Running?)
    case Rejected(found, t) =>
      answer == Yields(t) && t.Fail? && (found.Some? ==> found.value.status.Running?)
    case Exhausted(_, _) => false
  }

  /** The saga answers with a `Start` to an instance that is stored and running. */
  predicate RestartsRunning(current: Option<Instance>, answer: Reaction) {
    current.Some? && current.value.status.Running? && answer.Yields? && answer.transition.Start?
  }

  /** Outcomes in which this call itself wrote the row. */
  predicate Wrote(result: Outcome) {
    result.Accepted? || (result.Rejected? && result.found.Some?)
  }

  /** A lost attempt: what it loaded, what the saga answered, and the writes of others that landed before its save. */
  datatype Attempt = Attempt(found: Option<Instance>, transition: Transition, landed: nat)

  /** The saga answers `Start` only when nothing is stored. */
  ghost predicate StartsOnlyWhenAbsent(react: (nat, Option<Instance>) -> Reaction) {
    forall k, c :: react(k, Some(c)).Yields? ==> !react(k, Some(c)).transition.Start?
  }

  predicate StoresNothing(current: Option<Instance>, t: Transition) {
    t.Fail? && current.None?
  }

  /** The row a successful save of this deed leaves behind. */
  function Stored(id: Id, base: Option<Instance>, deed: Deed): Instance
    requires Proposable(base, deed)
  {
    var inst := Proposal(id, base, deed);
    inst.(version := inst.version + 1)
  }

  function TimeoutDeed(t: Transition): Deed {
    if t.Ignore? then DeadlineCleared else Applied(t)
  }

  /** What firing a claimed copy saves. */
  function FiredProposal(inst: Instance, t: Transition): Instance {
    Proposal(inst.id, Some(inst), TimeoutDeed(t))
  }

  /** The rows after the first `n` claimed timeouts were fired with nobody else writing. */
  function RowsAfterFiring(rows: Rows, due: seq<Instance>, onTimeout: Instance -> Reaction, n: nat): Rows
    requires n <= |due|
  {
    if n == 0 then rows else
      var r, before := onTimeout(due[n - 1]), RowsAfterFiring(rows, due, onTimeout, n - 1);
      if r.Yields? then RowsAfterSave(before, FiredProposal(due[n - 1], r.transition)) else before
  }

  /** How a sweep ended: through, at an `on_timeout` error, or at a lost save. */
  datatype SweepEnd = Through | Erred | LostSave

  /** Why a sweep stopped where it did; `rows` are the rows at that moment, which a lost save leaves alone. */
  ghost predicate StoppedFor(end: SweepEnd, rows: Rows, due: seq<Instance>, onTimeout: Instance -> Reaction, processed: nat) {
    && processed <= |due|
    && (end.Through? <==> processed == |due|)
    && (end.Erred? ==> onTimeout(due[processed]).Errs?)
    && (end.LostSave? ==>
          && onTimeout(due[processed]).Yields?
          && VersionOf(Row(rows, due[processed].id)) != FiredProposal(due[processed], onTimeout(due[processed]).transition).version)
  }

  /** The commands of the first `n` fired timeouts. */
  function Emitted(due: seq<Instance>, onTimeout: Instance -> Reaction, n: nat): seq<Command>
    requires n <= |due|
  {
    if n == 0 then [] else
      var r := onTimeout(due[n - 1]);
      Emitted(due, onTimeout, n - 1) + (if r.Yields? then CommandsOf(r.transition) else [])
  }

  function TotalLanded(lost: seq<Attempt>): nat {
    if lost == [] then 0 else TotalLanded(lost[..|lost| - 1]) + lost[|lost| - 1].landed
  }

  lemma {:induction false} EachLandedAddsUp(lost: seq<Attempt>)
    requires forall k :: 0 <= k < |lost| ==> lost[k].landed >= 1
    ensures TotalLanded(lost) >= |lost|
  {
    if lost != [] {
      EachLandedAddsUp(lost[..|lost| - 1]);
    }
  }

  /** Why an attempt lost: someone wrote inside its window, or it restarted a stored saga. */
  predicate Explained(a: Attempt) {
    a.landed >= 1 || (a.transition.Start? && a.found.Some?)
  }

  /** What a call that ended leaves behind: the row as it was found, or as its transition makes it, and its commands. */
  ghost predicate Concluded(id: Id, rows: Rows, before: seq<Command>, after: seq<Command>, result: Outcome)
    requires !result.Exhausted?
  {
    match result
    case Accepted(found, t) =>
      && Proposable(found, Applied(t)) && Row(rows, id) == Some(Stored(id, found, Applied(t)))
      && !t.Ignore? && after == before + t.commands
    case Rejected(found, t) =>
      && (found.Some? ==> Proposable(found, Applied(t)) && Row(rows, id) == Some(Stored(id, found, Applied(t))))
      && !t.Ignore? && after == before + t.commands
    case _ => Row(rows, id) == result.found && after == before
  }

  /** What a conflict reports: the version the attempt saved at and the version stored. */
  ghost predicate LastConflict(id: Id, rows: Rows, a: Attempt, expected: nat, actual: Option<nat>) {
    && Proposable(a.found, Applied(a.transition))
    && expected == Proposal(id, a.found, Applied(a.transition)).version
    && actual == if id in rows then Some(rows[id].version) else None
  }

  /** Each lost attempt followed the saga's answer to what it loaded, and lost for one of the two reasons. */
  ghost predicate LossesExplained(react: (nat, Option<Instance>) -> Reaction, lost: seq<Attempt>) {
    forall k :: 0 <= k < |lost| ==> react(k, lost[k].found) == Yields(lost[k].transition) && Explained(lost[k])
  }

  lemma OneMoreLoss(react: (nat, Option<Instance>) -> Reaction, lost: seq<Attempt>, a: Attempt)
    requires LossesExplained(react, lost) && react(|lost|, a.found) == Yields(a.transition) && Explained(a)
    ensures LossesExplained(react, lost + [a]) && TotalLanded(lost + [a]) == TotalLanded(lost) + a.landed
  {
    assert (lost + [a])[..|lost|] == lost;
  }

  class Runner {
    const store: InMemorySagaStore
    var outbox: seq<Command>

    constructor (store: InMemorySagaStore)
      ensures this.store == store && outbox == []
    {
      this.store := store;
      outbox := [];
    }

    /** One write of another caller, and whether it reached the row of `id`. */
    method OtherWrites(id: Id, write: OtherWrite) returns (hit: bool)
      requires store.Valid()
      modifies store
      ensures store.Valid() && OneWrite(old(store.rows), write, store.rows)
      ensures VersionOf(Row(store.rows, id)) == old(VersionOf(Row(store.rows, id))) + (if hit then 1 else 0)
      ensures !hit ==> Row(store.rows, id) == old(Row(store.rows, id))
    {
      var before := store.Load(id);
      match write {
        case OtherSave(inst) =>
          var verdict := store.Save(inst);
        case OtherClaim(now, lease, limit) =>
          var claimed, picked := store.ClaimDue(now, lease, limit);
      }
      var after := store.Load(id);
      hit := VersionOf(before) < VersionOf(after);
    }

    /** Lets others write, in turn; `landed` counts the writes that reached the row of `id`. */
    method Interfere(id: Id, writes: seq<OtherWrite>) returns (landed: nat)
      requires store.Valid()
      modifies store
      ensures store.Valid()
      ensures VersionOf(Row(store.rows, id)) == old(VersionOf(Row(store.rows, id))) + landed
      ensures landed == 0 ==> Row(store.rows, id) == old(Row(store.rows, id))
      ensures writes == [] ==> landed == 0 && store.rows == old(store.rows)
      ensures Reaches(old(store.rows), writes, store.rows)
    {
      landed := 0;
      for i := 0 to |writes|
        invariant store.Valid()
        invariant VersionOf(Row(store.rows, id)) == old(VersionOf(Row(store.rows, id))) + landed
        invariant landed == 0 ==> Row(store.rows, id) == old(Row(store.rows, id))
        invariant i == 0 ==> landed == 0 && store.rows == old(store.rows)
        invariant Reaches(old(store.rows), writes[..i], store.rows)
      {
        var hit := OtherWrites(id, writes[i]);
        if hit {
          landed := landed + 1;
        }
        assert writes[..i + 1][..i] == writes[..i];
      }
      assert writes[..|writes|] == writes;
    }

    /** `apply_transition`: builds the instance, saves it, and only then queues the commands. */
    method ApplyTransition(id: Id, current: Option<Instance>, t: Transition) returns (result: ApplyResult)
      requires store.Valid() && !t.Ignore?
      modifies this, store
      ensures store.Valid()
      ensures StoresNothing(current, t) ==> result.BusinessFailure? && store.rows == old(store.rows)
      ensures !StoresNothing(current, t) ==> Proposable(current, Applied(t))
      ensures !StoresNothing(current, t) ==>
                var inst := Proposal(id, current, Applied(t));
                && store.rows == RowsAfterSave(old(store.rows), inst)
                && (result.Lost? <==> SaveVerdict(old(store.rows), inst).Conflict?)
                && (result.Lost? ==> SaveVerdict(old(store.rows), inst) == Conflict(result.expected, result.actual))
      ensures result.BusinessFailure? <==> t.Fail? && !result.Lost?
      ensures outbox == old(outbox) + (if result.Lost? then [] else t.commands)
    {
      var inst: Instance;
      match t {
        case Start(s, _, d) =>
          inst := Instance(id, s, Running, d, 0);
        case Advance(s, _, d) =>
          inst := if current.Some? then current.value else Instance(id, s, Running, None, 0);
          inst := inst.(state := s, status := Running, deadline := d);
        case Complete(s, _) =>
          inst := if current.Some? then current.value else Instance(id, s, Running, None, 0);
          inst := inst.(state := s, status := Completed, deadline := None);
        case Fail(_) =>
          if current.None? {
            outbox := outbox + t.commands;
            return BusinessFailure;
          }
          inst := current.value.(status := Failed, deadline := None);
      }
      var verdict := store.Save(inst);
      if verdict.Conflict? {
        return Lost(verdict.expected, verdict.actual);
      }
      outbox := outbox + t.commands;
      return if t.Fail? then BusinessFailure else Done;
    }

    /** The load-to-save window of one attempt: others write, then this attempt tries to save. */
    method Attempted(id: Id, current: Option<Instance>, t: Transition, writes: seq<OtherWrite>)
      returns (result: ApplyResult, landed: nat)
      requires store.Valid() && !t.Ignore? && current == Row(store.rows, id)
      modifies this, store
      ensures store.Valid()
      ensures result.Lost? ==> Explained(Attempt(current, t, landed))
      ensures result.Lost? ==> LastConflict(id, store.rows, Attempt(current, t, landed), result.expected, result.actual)
      ensures writes == [] ==> landed == 0 && OthersUnchanged(old(store.rows), store.rows, id)
      ensures result.BusinessFailure? <==> t.Fail? && !result.Lost?
      ensures VersionOf(Row(store.rows, id)) == old(VersionOf(Row(store.rows, id))) + landed
                + (if result.Lost? || StoresNothing(current, t) then 0 else 1)
      ensures !result.Lost? && !StoresNothing(current, t) ==>
                Proposable(current, Applied(t)) && Row(store.rows, id) == Some(Stored(id, current, Applied(t)))
      ensures outbox == old(outbox) + (if result.Lost? then [] else t.commands)
    {
      landed := Interfere(id, writes);
      result := ApplyTransition(id, current, t);
    }

    /**
     * One turn of the loop in `handle`: load, react, and unless that ends the
     * call, save. It ends the call with an outcome, or is a lost attempt.
     */
    method TryOnce(id: Id, react: Option<Instance> -> Reaction, beforeLoad: seq<OtherWrite>, beforeSave: seq<OtherWrite>)
      returns (end: Option<Outcome>, attempt: Attempt, conflict: (nat, Option<nat>), seen: nat)
      requires store.Valid()
      modifies this, store
      ensures store.Valid()
      ensures end.Some? ==>
                && !end.value.Exhausted? && AnswersTo(end.value, react(end.value.found))
                && Concluded(id, store.rows, old(outbox), outbox, end.value)
      ensures end.None? ==>
                && outbox == old(outbox)
                && react(attempt.found) == Yields(attempt.transition) && Explained(attempt) && attempt.landed <= seen
                && LastConflict(id, store.rows, attempt, conflict.0, conflict.1)
      ensures VersionOf(Row(store.rows, id)) == old(VersionOf(Row(store.rows, id))) + seen
                + (if end.Some? && Wrote(end.value) then 1 else 0)
      ensures beforeLoad == [] ==>
                if end.Some? then end.value.found == old(Row(store.rows, id)) else attempt.found == old(Row(store.rows, id))
      ensures beforeLoad == [] && beforeSave == [] ==> OthersUnchanged(old(store.rows), store.rows, id)
      ensures end.None? && beforeSave == [] ==> RestartsRunning(attempt.found, react(attempt.found))
    {
      seen := Interfere(id, beforeLoad);
      var current := store.Load(id);
      attempt, conflict := Attempt(current, Ignore, 0), (0, None);
      var reaction := react(current);
      if reaction.Errs? {
        return Some(ReactFailed(current)), attempt, conflict, seen;
      }
      if reaction.transition.Ignore? {
        return Some(Ignored(current)), attempt, conflict, seen;
      }
      if current.Some? && !current.value.status.Running? {
        return Some(AlreadyTerminal(current)), attempt, conflict, seen;
      }
      var applied, landed := Attempted(id, current, reaction.transition, beforeSave);
      seen := seen + landed;
      match applied {
        case Done => end := Some(Accepted(current, reaction.transition));
        case BusinessFailure => end := Some(Rejected(current, reaction.transition));
        case Lost(expected, actual) =>
          end := None;
          attempt := Attempt(current, reaction.transition, landed);
          conflict := (expected, actual);
      }
    }

    /**
     * `handle` for an event of saga `id`. Giving up with a conflict takes all
     * eight attempts, and each of them lost either to a write that landed
     * inside its own load-to-save window or by restarting a stored saga.
     * `seen` counts every write of others during the call.
     */
    method Handle(id: Id, react: (nat, Option<Instance>) -> Reaction, others: nat -> seq<OtherWrite>)
      returns (result: Outcome, lost: seq<Attempt>, seen: nat)
      requires store.Valid()
      modifies this, store
      ensures store.Valid()
      ensures |lost| <= MAX_CONFLICT_RETRIES
      ensures result.Exhausted? <==> |lost| == MAX_CONFLICT_RETRIES
      ensures LossesExplained(react, lost)
      ensures TotalLanded(lost) <= seen
      ensures result.Exhausted? && StartsOnlyWhenAbsent(react) ==>
                (forall k :: 0 <= k < |lost| ==> lost[k].landed >= 1) && seen >= MAX_CONFLICT_RETRIES
      ensures VersionOf(Row(store.rows, id)) == old(VersionOf(Row(store.rows, id))) + seen
                + (if Wrote(result) then 1 else 0)
      ensures !result.Exhausted? ==>
                && AnswersTo(result, react(|lost|, result.found))
                && Concluded(id, store.rows, old(outbox), outbox, result)
      ensures result.Exhausted? ==> outbox == old(outbox)
      // With nobody else writing, the first answer to the stored row decides, unless it restarts a running saga.
      ensures (forall i :: others(i) == []) && !RestartsRunning(old(Row(store.rows, id)), react(0, old(Row(store.rows, id)))) ==>
                lost == [] && !result.Exhausted? && result.found == old(Row(store.rows, id))
      ensures (forall i :: others(i) == []) ==> OthersUnchanged(old(store.rows), store.rows, id)
      ensures result.Exhausted? ==> LastConflict(id, store.rows, lost[|lost| - 1], result.expected, result.actual)
    {
      ghost var quiet, before := forall i :: others(i) == [], store.rows;
      lost := [];
      seen := 0;
      var lastConflict: (nat, Option<nat>) := (0, None);
      for attempt := 0 to MAX_CONFLICT_RETRIES
        invariant store.Valid() && outbox == old(outbox)
        invariant |lost| == attempt
        invariant VersionOf(Row(store.rows, id)) == old(VersionOf(Row(store.rows, id))) + seen
        invariant LossesExplained(react, lost)
        invariant TotalLanded(lost) <= seen
        invariant lost != [] ==> LastConflict(id, store.rows, lost[|lost| - 1], lastConflict.0, lastConflict.1)
        invariant quiet ==> OthersUnchanged(before, store.rows, id)
        invariant quiet && lost == [] ==> Row(store.rows, id) == Row(before, id)
        invariant quiet && lost != [] ==> RestartsRunning(Row(before, id), react(0, Row(before, id)))
      {
        var end, tried, conflict, landed := TryOnce(id, found => react(attempt, found), others(2 * attempt), others(2 * attempt + 1));
        seen := seen + landed;
        if end.Some? {
          return end.value, lost, seen;
        }
        lastConflict := conflict;
        OneMoreLoss(react, lost, tried);
        lost := lost + [tried];
      }
      if StartsOnlyWhenAbsent(react) {
        EveryLossHadAWrite(react, lost);
      }
      return Exhausted(lastConflict.0, lastConflict.1), lost, seen;
    }

    /** Fires one claimed timeout; an ignored one clears the deadline. `landed` counts the writes of others. */
    method Fire(inst: Instance, t: Transition, writes: seq<OtherWrite>) returns (won: bool, landed: nat)
      requires store.Valid()
      modifies this, store
      ensures store.Valid()
      ensures VersionOf(Row(store.rows, inst.id)) == old(VersionOf(Row(store.rows, inst.id))) + landed + (if won then 1 else 0)
      ensures won <==> old(VersionOf(Row(store.rows, inst.id))) + landed == FiredProposal(inst, t).version
      ensures won ==> Row(store.rows, inst.id) == Some(Stored(inst.id, Some(inst), TimeoutDeed(t)))
      ensures writes == [] ==> store.rows == RowsAfterSave(old(store.rows), FiredProposal(inst, t))
      ensures writes == [] && !won ==> store.rows == old(store.rows)
      ensures outbox == old(outbox) + (if won then CommandsOf(t) else [])
    {
      landed := Interfere(inst.id, writes);
      if t.Ignore? {
        var verdict := store.Save(inst.(deadline := None));
        return verdict.Saved?, landed;
      }
      var applied := ApplyTransition(inst.id, Some(inst), t);
      return !applied.Lost?, landed;
    }

    /** Works through the claimed instances, stopping at the first error or lost save. */
    method FireAll(due: seq<Instance>, onTimeout: Instance -> Reaction, others: nat -> seq<OtherWrite>)
      returns (end: SweepEnd, processed: nat)
      requires store.Valid()
      modifies this, store
      ensures store.Valid()
      ensures StoppedFor(end, store.rows, due, onTimeout, processed)
      ensures (forall i :: others(i) == []) ==>
                store.rows == RowsAfterFiring(old(store.rows), due, onTimeout, processed)
      ensures outbox == old(outbox) + Emitted(due, onTimeout, processed)
      ensures forall i :: 0 <= i < processed ==> onTimeout(due[i]).Yields?
    {
      processed := 0;
      while processed < |due|
        invariant store.Valid() && processed <= |due|
        invariant outbox == old(outbox) + Emitted(due, onTimeout, processed)
        invariant (forall i :: others(i) == []) ==>
                    store.rows == RowsAfterFiring(old(store.rows), due, onTimeout, processed)
        invariant forall i :: 0 <= i < processed ==> onTimeout(due[i]).Yields?
      {
        var reaction := onTimeout(due[processed]);
        if reaction.Errs? {
          return Erred, processed;
        }
        var won, landed := Fire(due[processed], reaction.transition, others(processed));
        if !won {
          return LostSave, processed;
        }
        processed := processed + 1;
      }
      return Through, processed;
    }

    /**
     * One timeout sweep. It claims the soonest due instances, and the commands
     * it queues are exactly those of the timeouts it got through, in order.
     */
    method RunDueTimeouts(now: int, lease: int, limit: nat, onTimeout: Instance -> Reaction, others: nat -> seq<OtherWrite>)
      returns (end: SweepEnd, processed: nat, ghost picked: seq<Id>, due: seq<Instance>)
      requires store.Valid()
      modifies this, store
      ensures store.Valid()
      ensures SoonestDue(old(store.rows), now, limit, picked)
      ensures due == ClaimedCopies(old(store.rows), picked)
      ensures StoppedFor(end, store.rows, due, onTimeout, processed)
      ensures (forall i :: others(i) == []) ==>
                store.rows == RowsAfterFiring(RowsAfterClaims(old(store.rows), picked, now + lease), due, onTimeout, processed)
      ensures outbox == old(outbox) + Emitted(due, onTimeout, processed)
    {
      due, picked := store.ClaimDue(now, lease, limit);
      end, processed := FireAll(due, onTimeout, others);
    }
  }

  lemma EveryLossHadAWrite(react: (nat, Option<Instance>) -> Reaction, lost: seq<Attempt>)
    requires StartsOnlyWhenAbsent(react) && LossesExplained(react, lost)
    ensures forall k :: 0 <= k < |lost| ==> lost[k].landed >= 1
    ensures TotalLanded(lost) >= |lost|
  {
    forall k | 0 <= k < |lost| ensures lost[k].landed >= 1 {
      if lost[k].found.Some? {
        assert react(k, Some(lost[k].found.value)) == Yields(lost[k].transition);
      }
    }
    EachLandedAddsUp(lost);
  }
}
