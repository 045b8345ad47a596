/**
 * Giving up: a `handle` call returns `Conflict` only after all of its attempts
 * have lost, and what that says about the other writers of the saga.
 */
module SagaRetries {
  import opened Common
  import opened SagaStore
  import opened SagaProtocol

  /** The saga answers an event with `Start` only when it found nothing stored. */
  ghost predicate StartsOnlyAbsent(acts: seq<Action>) {
    forall n :: 0 <= n < |acts| ==> StartsAbsentAt(RunFrom(EMPTY, acts[..n]), acts[n])
  }

  predicate StartsAbsentAt(w: World, a: Action) {
    a.React? && a.p in w.procs && w.procs[a.p].Reacting? && w.procs[a.p].current.Some? && a.reaction.Yields? ==>
      !a.reaction.transition.Start?
  }

  predicate NeverRestarted(lost: seq<Window>) {
    forall i :: 0 <= i < |lost| ==> !lost[i].restart
  }

  predicate PcNeverRestarts(pc: Pc) {
    match pc
    case Loading(_, lost) => NeverRestarted(lost)
    case Reacting(_, _, lost, _) => NeverRestarted(lost)
    case Saving(_, _, _, call) => call.EventCall? ==> NeverRestarted(call.lost) && !Restarts(pc)
    case _ => true
  }

  ghost predicate NoRestarts(w: World) {
    && (forall p :: p in w.procs ==> PcNeverRestarts(w.procs[p]))
    && (forall i :: 0 <= i < |w.gaveUp| ==> NeverRestarted(w.gaveUp[i].lost))
  }

  lemma StepKeepsNoRestarts(w: World, a: Action)
    requires NoRestarts(w) && StartsAbsentAt(w, a)
    ensures NoRestarts(Next(w, a))
  {
    assert a.p in w.procs ==> PcNeverRestarts(w.procs[a.p]);
  }

  lemma {:induction false} RunKeepsNoRestarts(acts: seq<Action>)
    requires StartsOnlyAbsent(acts)
    ensures NoRestarts(RunFrom(EMPTY, acts))
  {
    if acts != [] {
      var init := acts[..|acts| - 1];
      forall n | 0 <= n < |init| ensures StartsAbsentAt(RunFrom(EMPTY, init[..n]), init[n]) {
        assert init[..n] == acts[..n];
      }
      RunKeepsNoRestarts(init);
      assert StartsAbsentAt(RunFrom(EMPTY, init), acts[|acts| - 1]);
      StepKeepsNoRestarts(RunFrom(EMPTY, init), acts[|acts| - 1]);
    }
  }

  lemma WritesGrowBetween(log: seq<Entry>, id: Id, m: nat, n: nat)
    requires m <= n <= |log|
    ensures WriteCount(log[..m], id) <= WriteCount(log[..n], id)
  {
    assert log[..n][..m] == log[..m];
    WritesOnlyGrow(log[..n], id, m);
  }

  /** Disjoint windows with a write in each hold at least as many writes as there are windows. */
  lemma {:induction false} WindowsAddUp(log: seq<Entry>, id: Id, lost: seq<Window>)
    requires LostOk(log, id, lost) && NeverRestarted(lost) && lost != []
    ensures WriteCount(log[..lost[0].loadedAt], id) + |lost| <= WriteCount(log[..lost[|lost| - 1].lostAt], id)
  {
    var n := |lost| - 1;
    assert !lost[n].restart;
    if n > 0 {
      assert LostOk(log, id, lost[..n]) && NeverRestarted(lost[..n]);
      WindowsAddUp(log, id, lost[..n]);
      WritesGrowBetween(log, id, lost[n - 1].lostAt, lost[n].loadedAt);
    }
  }

  /**
   * A call that gave up made eight attempts, one after the other, and each lost
   * to a write of its saga between its own load and save, or by starting a saga
   * it had found stored. The call itself wrote nothing: its first winning save
   * would have ended it.
   */
  lemma GivingUpTakesEightLosses(acts: seq<Action>, i: nat)
    requires i < |RunFrom(EMPTY, acts).gaveUp|
    ensures var w := RunFrom(EMPTY, acts);
            |w.gaveUp[i].lost| == MAX_CONFLICT_RETRIES && LostOk(w.log, w.gaveUp[i].id, w.gaveUp[i].lost)
  {
    RunKeepsInv(EMPTY, acts);
  }

  /** If sagas start only when absent, then at least eight writes of the saga landed during the call. */
  lemma GivingUpTakesEightWrites(acts: seq<Action>, i: nat)
    requires StartsOnlyAbsent(acts) && i < |RunFrom(EMPTY, acts).gaveUp|
    ensures var w := RunFrom(EMPTY, acts);
            var id, lost := w.gaveUp[i].id, w.gaveUp[i].lost;
            && |lost| == MAX_CONFLICT_RETRIES
            && lost[0].loadedAt <= lost[7].lostAt <= |w.log|
            && WriteCount(w.log[..lost[0].loadedAt], id) + MAX_CONFLICT_RETRIES <= WriteCount(w.log[..lost[7].lostAt], id)
  {
    var w := RunFrom(EMPTY, acts);
    GivingUpTakesEightLosses(acts, i);
    RunKeepsNoRestarts(acts);
    WindowsAddUp(w.log, w.gaveUp[i].id, w.gaveUp[i].lost);
  }
}
