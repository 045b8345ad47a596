/**
 * Whole `save_and_enqueue_in` calls. A call spans several steps of its process,
 * with the steps of others in between; these theorems compare the moment before
 * it with a moment after it.
 */
module UnitOfWorkCalls {
  import opened Common
  import opened UnitOfWork
  import opened UnitOfWorkProtocol

  /** Between its own edits, a process only makes calls. */
  predicate OnlyCalls(p: nat, acts: seq<Action>) {
    forall i :: 0 <= i < |acts| && acts[i].p == p ==> !acts[i].Mutate? && !acts[i].Release?
  }

  /** Of its calls, it takes no step past the version check. */
  predicate OnlyTries(p: nat, acts: seq<Action>) {
    forall i :: 0 <= i < |acts| && acts[i].p == p ==> acts[i].Call? || acts[i].Begin? || acts[i].SaveInTx?
  }

  /** Nothing that `p` committed is in the history after its first `n` lines. */
  ghost predicate NoneBy(p: nat, log: seq<Commit>, n: nat) {
    forall i :: n <= i < |log| ==> log[i].author != p
  }

  /** The process still holds `agg`; while staged, the version is one ahead. */
  predicate Unspent(agg: Aggregate, proc: Proc) {
    match proc.stage
    case Committing(_, _) => false
    case Staged(_, _) => proc.agg == agg.(version := agg.version + 1)
    case _ => proc.agg == agg
  }

  lemma {:induction false} LogOnlyGrows(mapping: Event -> Option<Message>, w: World, acts: seq<Action>)
    ensures w.log <= RunFrom(mapping, w, acts).log
  {
    if acts != [] {
      LogOnlyGrows(mapping, w, acts[..|acts| - 1]);
    }
  }

  lemma StepKeepsUnspent(mapping: Event -> Option<Message>, w: World, a: Action, p: nat, agg: Aggregate, n: nat)
    requires p in w.procs && Unspent(agg, w.procs[p]) && n <= |w.log|
    requires a.p == p ==> !a.Mutate? && !a.Release?
    requires w.procs[p].stage.Staged? ==> w.procs[p].stage.tx.staged.Some?
    ensures var w' := Next(mapping, w, a); p in w'.procs && (NoneBy(p, w'.log, n) ==> Unspent(agg, w'.procs[p]))
  {
    assert a.CommitTx? && a.p == p && Next(mapping, w, a) != w ==> Next(mapping, w, a).log[|w.log|].author == p;
  }

  /** As long as nothing of `p` is committed, whatever it tried and whatever others did, it holds what it held. */
  lemma {:induction false} UncommittedCallsKeepAggregate(mapping: Event -> Option<Message>, w: World, acts: seq<Action>, p: nat)
    requires Inv(mapping, w) && p in w.procs && w.procs[p].stage.Idle? && OnlyCalls(p, acts)
    requires NoneBy(p, RunFrom(mapping, w, acts).log, |w.log|)
    ensures var w' := RunFrom(mapping, w, acts); p in w'.procs && Unspent(w.procs[p].agg, w'.procs[p])
  {
    if acts != [] {
      var init, a := acts[..|acts| - 1], acts[|acts| - 1];
      var before := RunFrom(mapping, w, init);
      LogOnlyGrows(mapping, w, init);
      assert before.log <= Next(mapping, before, a).log;
      assert forall i :: 0 <= i < |init| ==> init[i] == acts[i];
      UncommittedCallsKeepAggregate(mapping, w, init, p);
      RunKeepsInv(mapping, w, init);
      assert ProcOk(mapping, before.aggregates, before.log, before.lock, p, before.procs[p]);
      StepKeepsUnspent(mapping, before, a, p, w.procs[p].agg, |w.log|);
    }
  }

  /** A process that never goes past the version check commits nothing. */
  lemma {:induction false} TriesCommitNothing(mapping: Event -> Option<Message>, w: World, acts: seq<Action>, p: nat)
    requires OnlyTries(p, acts)
    ensures NoneBy(p, RunFrom(mapping, w, acts).log, |w.log|)
  {
    if acts != [] {
      var init := acts[..|acts| - 1];
      assert forall i :: 0 <= i < |init| ==> init[i] == acts[i];
      TriesCommitNothing(mapping, w, init, p);
    }
  }

  lemma {:induction false} RunsCompose(mapping: Event -> Option<Message>, w: World, acts: seq<Action>, more: seq<Action>)
    ensures RunFrom(mapping, w, acts + more) == RunFrom(mapping, RunFrom(mapping, w, acts), more)
  {
    if more == [] {
      assert acts + more == acts;
    } else {
      var n := |more| - 1;
      RunsCompose(mapping, w, acts, more[..n]);
      assert (acts + more)[..|acts| + n] == acts + more[..n] && (acts + more)[|acts| + n] == more[n];
    }
  }

  /**
   * A failed call leaves no trace. Take any run, a process that is between calls,
   * and any continuation in which it only makes calls and is between calls again.
   * If it never got past the version check, nothing of it was committed; and if
   * nothing of it was committed, it holds the same version, state and pending
   * events as before and does not hold the mutex.
   */
  lemma FailedCallsChangeNothing(mapping: Event -> Option<Message>, acts: seq<Action>, more: seq<Action>, p: nat)
    requires OnlyCalls(p, more)
    requires var w := RunFrom(mapping, EMPTY, acts); p in w.procs && w.procs[p].stage.Idle?
    requires var w' := RunFrom(mapping, EMPTY, acts + more); p in w'.procs && w'.procs[p].stage.Idle?
    ensures var w, w' := RunFrom(mapping, EMPTY, acts), RunFrom(mapping, EMPTY, acts + more);
            && w.log <= w'.log
            && (OnlyTries(p, more) ==> NoneBy(p, w'.log, |w.log|))
            && (NoneBy(p, w'.log, |w.log|) ==> w'.procs[p].agg == w.procs[p].agg && w'.lock != Some(p))
  {
    var w := RunFrom(mapping, EMPTY, acts);
    RunsCompose(mapping, EMPTY, acts, more);
    RunKeepsInv(mapping, EMPTY, acts);
    RunKeepsInv(mapping, w, more);
    LogOnlyGrows(mapping, w, more);
    var w' := RunFrom(mapping, w, more);
    assert ProcOk(mapping, w'.aggregates, w'.log, w'.lock, p, w'.procs[p]);
    if OnlyTries(p, more) {
      TriesCommitNothing(mapping, w, more, p);
    }
    if NoneBy(p, w'.log, |w.log|) {
      UncommittedCallsKeepAggregate(mapping, w, more, p);
    }
  }

  // ---------------------------------------------------------------- when a call conflicts

  /** Someone has committed on top of version `v`. */
  ghost predicate Superseded(log: seq<Commit>, id: Id, v: nat) {
    exists i :: 0 <= i < |log| && log[i].id == id && log[i].base == v
  }

  lemma {:induction false} CommitsOnlyGrow(log: seq<Commit>, id: Id, n: nat)
    requires n <= |log|
    ensures CommitCount(log[..n], id) <= CommitCount(log, id)
  {
    if n < |log| {
      assert log[..|log| - 1][..n] == log[..n];
      CommitsOnlyGrow(log[..|log| - 1], id, n);
    } else {
      assert log[..n] == log;
    }
  }

  lemma {:induction false} ReplacingCommit(log: seq<Commit>, id: Id, v: nat) returns (i: nat)
    requires VersionOrder(log) && v < CommitCount(log, id)
    ensures i < |log| && log[i].id == id && log[i].base == v
  {
    var n := |log| - 1;
    if v < CommitCount(log[..n], id) {
      PrefixInVersionOrder(log, n);
      i := ReplacingCommit(log[..n], id, v);
    } else {
      i := n;
    }
  }

  lemma CommitMovesOn(log: seq<Commit>, i: nat)
    requires VersionOrder(log) && i < |log|
    ensures log[i].base < CommitCount(log, log[i].id)
  {
    CommitsOnlyGrow(log, log[i].id, i + 1);
    assert log[..i + 1][..i] == log[..i];
  }

  lemma SupersededExactly(log: seq<Commit>, id: Id, v: nat)
    requires VersionOrder(log)
    ensures Superseded(log, id, v) <==> v < CommitCount(log, id)
  {
    if v < CommitCount(log, id) {
      var i := ReplacingCommit(log, id, v);
    }
    forall i | 0 <= i < |log| && log[i].id == id ensures log[i].base < CommitCount(log, id) {
      CommitMovesOn(log, i);
    }
  }

  /** In a world that meets the invariant, the version check fails exactly when the held version was replaced. */
  lemma CheckFailsExactly(mapping: Event -> Option<Message>, w: World, p: nat)
    requires Inv(mapping, w) && p in w.procs && w.procs[p].stage.InTx?
    ensures var agg, w' := w.procs[p].agg, Next(mapping, w, SaveInTx(p));
            && w'.aggregates == w.aggregates && w'.outbox == w.outbox && w'.log == w.log
            && (w'.procs[p].stage.Idle? || w'.procs[p].stage.Staged?)
            && (w'.procs[p].stage.Idle? <==> CommitCount(w.log, agg.id) > agg.version)
  {
    assert ProcOk(mapping, w.aggregates, w.log, w.lock, p, w.procs[p]);
    assert VersionOf(w.aggregates, w.procs[p].agg.id) == CommitCount(w.log, w.procs[p].agg.id);
  }

  ghost predicate ConflictsExactly(mapping: Event -> Option<Message>, agg: Aggregate, w: World, p: nat)
    requires p in w.procs
  {
    var checked := Next(mapping, w, SaveInTx(p));
    && w.procs[p].agg == agg
    && checked.aggregates == w.aggregates && checked.outbox == w.outbox && checked.log == w.log
    && p in checked.procs
    && (checked.procs[p].stage.Idle? <==> CommitCount(w.log, agg.id) > agg.version)
    && (checked.procs[p].stage.Idle? <==> Superseded(w.log, agg.id, agg.version))
    && (checked.procs[p].stage.Idle? ==> checked.procs[p].agg == agg && checked.lock.None?)
  }

  lemma CheckConflictsExactly(mapping: Event -> Option<Message>, w: World, p: nat)
    requires Inv(mapping, w) && p in w.procs && w.procs[p].stage.InTx?
    ensures ConflictsExactly(mapping, w.procs[p].agg, w, p)
  {
    var agg := w.procs[p].agg;
    CheckFailsExactly(mapping, w, p);
    SupersededExactly(w.log, agg.id, agg.version);
  }

  lemma CheckAfterTries(mapping: Event -> Option<Message>, w: World, more: seq<Action>, p: nat)
    requires Inv(mapping, w) && OnlyTries(p, more) && p in w.procs && w.procs[p].stage.Idle?
    requires var w' := RunFrom(mapping, w, more); p in w'.procs && w'.procs[p].stage.InTx?
    ensures ConflictsExactly(mapping, w.procs[p].agg, RunFrom(mapping, w, more), p)
  {
    var w', agg := RunFrom(mapping, w, more), w.procs[p].agg;
    TriesCommitNothing(mapping, w, more, p);
    UncommittedCallsKeepAggregate(mapping, w, more, p);
    RunKeepsInv(mapping, w, more);
    CheckConflictsExactly(mapping, w', p);
  }

  /**
   * A call conflicts exactly when a commit has replaced the version its process
   * held before the call, at whatever moment that happened; the check itself
   * changes neither store, outbox nor history.
   */
  lemma CallsConflictExactly(mapping: Event -> Option<Message>, acts: seq<Action>, more: seq<Action>, p: nat)
    requires OnlyTries(p, more)
    requires var w := RunFrom(mapping, EMPTY, acts); p in w.procs && w.procs[p].stage.Idle?
    requires var w' := RunFrom(mapping, EMPTY, acts + more); p in w'.procs && w'.procs[p].stage.InTx?
    ensures ConflictsExactly(mapping, RunFrom(mapping, EMPTY, acts).procs[p].agg, RunFrom(mapping, EMPTY, acts + more), p)
  {
    RunsCompose(mapping, EMPTY, acts, more);
    RunKeepsInv(mapping, EMPTY, acts);
    CheckAfterTries(mapping, RunFrom(mapping, EMPTY, acts), more, p);
  }

  // ---------------------------------------------------------------- all or nothing

  /** One call: its first step is `Call`, and its process neither edits nor calls again. */
  predicate OneCall(p: nat, acts: seq<Action>) {
    && acts != [] && acts[0] == Call(p)
    && forall i :: 1 <= i < |acts| && acts[i].p == p ==> !acts[i].Call? && !acts[i].Mutate? && !acts[i].Release?
  }

  ghost predicate OnceBy(p: nat, log: seq<Commit>, n: nat, c: Commit) {
    exists j :: n <= j < |log| && log[j] == c && c.author == p && forall i :: n <= i < |log| && i != j ==> log[i].author != p
  }

  /** Where a call of `p` that started with `agg` stands. */
  ghost predicate CallState(p: nat, agg: Aggregate, log: seq<Commit>, n: nat, proc: Proc) {
    var c := Commit(p, agg.id, agg.version, agg.state, agg.pending);
    || (NoneBy(p, log, n) && Unspent(agg, proc))
    || (OnceBy(p, log, n, c) && proc.stage.Committing? && proc.agg == agg.(version := agg.version + 1))
    || (OnceBy(p, log, n, c) && proc.stage.Idle? && proc.agg == Saved(agg))
  }

  lemma OthersKeepCallState(p: nat, agg: Aggregate, log: seq<Commit>, log': seq<Commit>, n: nat, proc: Proc)
    requires CallState(p, agg, log, n, proc) && log <= log' && n <= |log|
    requires forall i :: |log| <= i < |log'| ==> log'[i].author != p
    ensures CallState(p, agg, log', n, proc)
  {
    var c := Commit(p, agg.id, agg.version, agg.state, agg.pending);
    if OnceBy(p, log, n, c) {
      var j :| n <= j < |log| && log[j] == c && forall i :: n <= i < |log| && i != j ==> log[i].author != p;
      assert log'[j] == c;
    }
  }

  lemma CommitEntersOnce(p: nat, log: seq<Commit>, n: nat, c: Commit)
    requires NoneBy(p, log, n) && n <= |log| && c.author == p
    ensures OnceBy(p, log + [c], n, c)
  {
    assert (log + [c])[|log|] == c;
  }

  lemma CommitIsTheCalls(mapping: Event -> Option<Message>, w: World, p: nat, agg: Aggregate, n: nat)
    requires Inv(mapping, w) && p in w.procs && n <= |w.log| && CallState(p, agg, w.log, n, w.procs[p])
    requires w.procs[p].stage.Staged?
    ensures var w' := AfterCommit(w, p); CallState(p, agg, w'.log, n, w'.procs[p])
  {
    assert ProcOk(mapping, w.aggregates, w.log, w.lock, p, w.procs[p]);
    CommitEntersOnce(p, w.log, n, AfterCommit(w, p).log[|w.log|]);
  }

  lemma OwnStepKeepsCallState(mapping: Event -> Option<Message>, w: World, a: Action, agg: Aggregate, n: nat)
    requires a.p in w.procs && CallState(a.p, agg, w.log, n, w.procs[a.p])
    requires a.Begin? || a.SaveInTx? || a.InsertInTx? || a.Flush? || a.Finish?
    ensures var w' := Next(mapping, w, a); a.p in w'.procs && w'.log == w.log && CallState(a.p, agg, w'.log, n, w'.procs[a.p])
  {
  }

  lemma OthersLeaveItAlone(mapping: Event -> Option<Message>, w: World, a: Action, p: nat)
    requires p in w.procs && a.p != p
    ensures var w' := Next(mapping, w, a);
            && p in w'.procs && w'.procs[p] == w.procs[p] && w.log <= w'.log
            && forall i :: |w.log| <= i < |w'.log| ==> w'.log[i].author != p
  {
  }

  lemma StepKeepsCallState(mapping: Event -> Option<Message>, w: World, a: Action, p: nat, agg: Aggregate, n: nat)
    requires Inv(mapping, w) && p in w.procs && n <= |w.log| && CallState(p, agg, w.log, n, w.procs[p])
    requires a.p == p ==> !a.Call? && !a.Mutate? && !a.Release?
    ensures var w' := Next(mapping, w, a); p in w'.procs && CallState(p, agg, w'.log, n, w'.procs[p])
  {
    var w' := Next(mapping, w, a);
    if a.p != p {
      OthersLeaveItAlone(mapping, w, a, p);
      OthersKeepCallState(p, agg, w.log, w'.log, n, w.procs[p]);
    } else if a.CommitTx? {
      if w' != w {
        CommitIsTheCalls(mapping, w, p, agg, n);
      }
    } else if !a.Create? && !a.Find? {
      OwnStepKeepsCallState(mapping, w, a, agg, n);
    }
  }

  lemma {:induction false} CallKeepsState(mapping: Event -> Option<Message>, w: World, acts: seq<Action>, p: nat)
    requires Inv(mapping, w) && p in w.procs && w.procs[p].stage.Idle? && OneCall(p, acts)
    ensures var w' := RunFrom(mapping, w, acts);
            |w.log| <= |w'.log| && p in w'.procs && CallState(p, w.procs[p].agg, w'.log, |w.log|, w'.procs[p])
  {
    var init, a := acts[..|acts| - 1], acts[|acts| - 1];
    LogOnlyGrows(mapping, w, acts);
    if init == [] {
      assert RunFrom(mapping, w, init) == w;
    } else {
      assert forall i :: 0 <= i < |init| ==> init[i] == acts[i];
      CallKeepsState(mapping, w, init, p);
      RunKeepsInv(mapping, w, init);
      StepKeepsCallState(mapping, RunFrom(mapping, w, init), a, p, w.procs[p].agg, |w.log|);
    }
  }

  /**
   * A call is all or nothing, whoever runs in between. When it is over, either
   * its process committed nothing and holds what it held; or it committed exactly
   * once, replacing the version it held with its own state and all of its pending
   * events, each of which maps, and holds the saved aggregate.
   */
  lemma CallsAreAllOrNothing(mapping: Event -> Option<Message>, acts: seq<Action>, call: seq<Action>, p: nat)
    requires OneCall(p, call)
    requires var w := RunFrom(mapping, EMPTY, acts); p in w.procs && w.procs[p].stage.Idle?
    requires var w' := RunFrom(mapping, EMPTY, acts + call); p in w'.procs && w'.procs[p].stage.Idle?
    ensures var w, w' := RunFrom(mapping, EMPTY, acts), RunFrom(mapping, EMPTY, acts + call);
            var agg := w.procs[p].agg;
            || (NoneBy(p, w'.log, |w.log|) && w'.procs[p].agg == agg)
            || (OnceBy(p, w'.log, |w.log|, Commit(p, agg.id, agg.version, agg.state, agg.pending))
                && w'.procs[p].agg == Saved(agg) && MapAll(mapping, agg.id, agg.pending).Some?)
  {
    var w := RunFrom(mapping, EMPTY, acts);
    RunsCompose(mapping, EMPTY, acts, call);
    RunKeepsInv(mapping, EMPTY, acts);
    RunKeepsInv(mapping, w, call);
    CallKeepsState(mapping, w, call, p);
  }
}
