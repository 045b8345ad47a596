/**
 * Every way the lanes of one dispatch run can interleave: at most `concurrency`
 * lanes are started and unfinished at a time, in lane order; within a lane each
 * message is recorded, published and booked before the next, and the first
 * undelivered message ends the lane. The publisher and the bookkeeping fail
 * however the actions say.
 */
module OutboxLaneRuns {
  import opened Common
  import opened OutboxStore
  import opened OutboxLanes

  datatype Stage = Ready | Recorded | Booking | Done

  /** `pos` is the message the lane is working on. */
  datatype Lane = Lane(pos: nat, stage: Stage)

  /** A successful publish, tagged with the lane it came from. */
  datatype Sent = Sent(lane: nat, message: OutboxMessage)

  datatype Progress = Progress(started: nat, lanes: seq<Lane>, log: seq<Sent>)

  datatype Action =
    | Start
    | Record(i: nat, ok: bool)
    | Publish(i: nat, ok: bool)
    | Book(i: nat)      // a failed `mark_published` does not stop the lane

  function Initial(lanes: seq<Batch>): Progress {
    Progress(0, seq(|lanes|, _ => Lane(0, Ready)), [])
  }

  function Running(p: Progress): set<nat> {
    set i | 0 <= i < p.started && i < |p.lanes| && !p.lanes[i].stage.Done?
  }

  function WithLane(p: Progress, i: nat, lane: Lane): Progress
    requires i < |p.lanes|
  {
    p.(lanes := p.lanes[i := lane])
  }

  predicate At(lanes: seq<Batch>, p: Progress, i: nat, stage: Stage) {
    i < p.started && i < |p.lanes| == |lanes| && p.lanes[i].stage == stage && p.lanes[i].pos < |lanes[i]|
  }

  function Next(lanes: seq<Batch>, concurrency: nat, p: Progress, a: Action): Progress {
    match a
    case Start =>
      if p.started < |lanes| && |Running(p)| < Max(1, concurrency) then p.(started := p.started + 1) else p
    case Record(i, ok) =>
      if !At(lanes, p, i, Ready) then p
      else WithLane(p, i, p.lanes[i].(stage := if ok then Recorded else Done))
    case Publish(i, ok) =>
      if !At(lanes, p, i, Recorded) then p
      else if !ok then WithLane(p, i, p.lanes[i].(stage := Done))
      else WithLane(p, i, p.lanes[i].(stage := Booking)).(log := p.log + [Sent(i, lanes[i][p.lanes[i].pos])])
    case Book(i) =>
      if !At(lanes, p, i, Booking) then p
      else
        var next := p.lanes[i].pos + 1;
        WithLane(p, i, Lane(next, if next == |lanes[i]| then Done else Ready))
  }

  function Run(lanes: seq<Batch>, concurrency: nat, acts: seq<Action>): Progress {
    if acts == [] then Initial(lanes)
    else Next(lanes, concurrency, Run(lanes, concurrency, acts[..|acts| - 1]), acts[|acts| - 1])
  }

  // ---------------------------------------------------------------- each lane publishes a prefix of itself

  function SentCount(lane: Lane): nat {
    lane.pos + if lane.stage.Booking? then 1 else 0
  }

  function FromLane(log: seq<Sent>, i: nat): Batch {
    if log == [] then []
    else FromLane(log[..|log| - 1], i) + (if log[|log| - 1].lane == i then [log[|log| - 1].message] else [])
  }

  function Messages(log: seq<Sent>): Batch {
    if log == [] then [] else Messages(log[..|log| - 1]) + [log[|log| - 1].message]
  }

  ghost predicate Inv(lanes: seq<Batch>, p: Progress) {
    && |p.lanes| == |lanes| && p.started <= |lanes|
    && (forall i :: 0 <= i < |lanes| ==>
          && SentCount(p.lanes[i]) <= |lanes[i]|
          && FromLane(p.log, i) == lanes[i][..SentCount(p.lanes[i])]
          && (i >= p.started ==> p.lanes[i] == Lane(0, Ready)))
    && (forall j :: 0 <= j < |p.log| ==> p.log[j].lane < |lanes| && p.log[j].message in lanes[p.log[j].lane])
  }

  lemma SentFromLane(log: seq<Sent>, e: Sent)
    ensures forall i :: FromLane(log + [e], i) == FromLane(log, i) + (if e.lane == i then [e.message] else [])
    ensures Messages(log + [e]) == Messages(log) + [e.message]
  {
    assert (log + [e])[..|log|] == log;
  }

  lemma PublishKeepsInv(lanes: seq<Batch>, concurrency: nat, p: Progress, i: nat)
    requires Inv(lanes, p) && At(lanes, p, i, Recorded)
    ensures Inv(lanes, Next(lanes, concurrency, p, Publish(i, true)))
  {
    var lane, pos := lanes[i], p.lanes[i].pos;
    SentFromLane(p.log, Sent(i, lane[pos]));
    assert lane[..pos + 1] == lane[..pos] + [lane[pos]];
  }

  lemma StepKeepsInv(lanes: seq<Batch>, concurrency: nat, p: Progress, a: Action)
    requires Inv(lanes, p)
    ensures Inv(lanes, Next(lanes, concurrency, p, a))
  {
    if a.Publish? && a.ok && At(lanes, p, a.i, Recorded) {
      PublishKeepsInv(lanes, concurrency, p, a.i);
    }
  }

  lemma {:induction false} RunKeepsInv(lanes: seq<Batch>, concurrency: nat, acts: seq<Action>)
    ensures Inv(lanes, Run(lanes, concurrency, acts))
  {
    if acts != [] {
      RunKeepsInv(lanes, concurrency, acts[..|acts| - 1]);
      StepKeepsInv(lanes, concurrency, Run(lanes, concurrency, acts[..|acts| - 1]), acts[|acts| - 1]);
    }
  }

  /** What was published of a key is what its lane published. */
  lemma {:induction false} KeyComesFromItsLane(lanes: seq<Batch>, log: seq<Sent>, i: nat, k: Key)
    requires LanesOk(lanes) && i < |lanes| && lanes[i][0].key == Some(k)
    requires forall j :: 0 <= j < |log| ==> log[j].lane < |lanes| && log[j].message in lanes[log[j].lane]
    ensures OfKey(Messages(log), k) == FromLane(log, i)
  {
    if log != [] {
      var n := |log| - 1;
      KeyComesFromItsLane(lanes, log[..n], i, k);
      OfKeySnoc(Messages(log[..n]), log[n].message);
      var j := log[n].lane;
      assert log[n].message.key == lanes[j][0].key;
      assert j != i ==> lanes[j][0].key != Some(k);
    }
  }

  lemma {:induction false} AbsentKeyIsNeverSent(lanes: seq<Batch>, log: seq<Sent>, k: Key)
    requires LanesOk(lanes) && forall i :: 0 <= i < |lanes| ==> lanes[i][0].key != Some(k)
    requires forall j :: 0 <= j < |log| ==> log[j].lane < |lanes| && log[j].message in lanes[log[j].lane]
    ensures OfKey(Messages(log), k) == []
  {
    if log != [] {
      var n := |log| - 1;
      AbsentKeyIsNeverSent(lanes, log[..n], k);
      OfKeySnoc(Messages(log[..n]), log[n].message);
      assert log[n].message.key == lanes[log[n].lane][0].key;
    }
  }

  /**
   * Per-key order: whatever the concurrency, interleaving and failures, the
   * messages of one key published so far are a prefix of that key's claimed
   * messages in claim order.
   */
  lemma PerKeyOrder(batch: Batch, concurrency: nat, acts: seq<Action>, k: Key)
    ensures OfKey(Messages(Run(LanesOf(batch), concurrency, acts).log), k) <= OfKey(batch, k)
  {
    var lanes := LanesOf(batch);
    var log := Run(lanes, concurrency, acts).log;
    LanesPartitionTheBatch(batch);
    RunKeepsInv(lanes, concurrency, acts);
    if i :| 0 <= i < |lanes| && lanes[i][0].key == Some(k) {
      KeyComesFromItsLane(lanes, log, i, k);
    } else {
      AbsentKeyIsNeverSent(lanes, log, k);
    }
  }

  // ---------------------------------------------------------------- concurrency and head-of-line blocking

  lemma StepKeepsBound(lanes: seq<Batch>, concurrency: nat, p: Progress, a: Action)
    requires |Running(p)| <= Max(1, concurrency)
    ensures |Running(Next(lanes, concurrency, p, a))| <= Max(1, concurrency)
  {
    var p' := Next(lanes, concurrency, p, a);
    if a.Start? {
      if p' != p {
        SubsetSize(Running(p'), Running(p) + {p.started});
      }
    } else {
      SubsetSize(Running(p'), Running(p));
    }
  }

  /** Never more lanes under way than the configured concurrency, taken as at least one. */
  lemma {:induction false} ConcurrencyIsBounded(lanes: seq<Batch>, concurrency: nat, acts: seq<Action>)
    ensures |Running(Run(lanes, concurrency, acts))| <= Max(1, concurrency)
  {
    if acts == [] {
      assert Running(Initial(lanes)) == {};
    } else {
      ConcurrencyIsBounded(lanes, concurrency, acts[..|acts| - 1]);
      StepKeepsBound(lanes, concurrency, Run(lanes, concurrency, acts[..|acts| - 1]), acts[|acts| - 1]);
    }
  }

  ghost predicate StartedTogether(lanes: seq<Batch>, p: Progress, n: nat) {
    p.started == n <= |lanes| == |p.lanes| && forall i :: 0 <= i < |p.lanes| ==> p.lanes[i] == Lane(0, Ready)
  }

  /** And that many lanes can be under way at once. */
  lemma {:induction false} ConcurrencyIsReached(lanes: seq<Batch>, concurrency: nat, n: nat) returns (acts: seq<Action>)
    requires n <= |lanes| && n <= Max(1, concurrency)
    ensures StartedTogether(lanes, Run(lanes, concurrency, acts), n) && |Running(Run(lanes, concurrency, acts))| == n
  {
    if n == 0 {
      acts := [];
      assert Running(Initial(lanes)) == {};
    } else {
      acts := ConcurrencyIsReached(lanes, concurrency, n - 1);
      var more := acts + [Start];
      assert more[..|acts|] == acts;
      assert Running(Run(lanes, concurrency, more)) == Running(Run(lanes, concurrency, acts)) + {n - 1};
      acts := more;
    }
  }

  predicate IsDone(p: Progress, i: nat) {
    i < |p.lanes| && p.lanes[i].stage.Done?
  }

  lemma StepKeepsDone(lanes: seq<Batch>, concurrency: nat, p: Progress, a: Action, i: nat)
    requires IsDone(p, i)
    ensures IsDone(Next(lanes, concurrency, p, a), i) && FromLane(Next(lanes, concurrency, p, a).log, i) == FromLane(p.log, i)
  {
    if a.Publish? && a.ok && At(lanes, p, a.i, Recorded) {
      SentFromLane(p.log, Sent(a.i, lanes[a.i][p.lanes[a.i].pos]));
    }
  }

  lemma {:induction false} DoneLanesStayDone(lanes: seq<Batch>, concurrency: nat, acts: seq<Action>, more: seq<Action>, i: nat)
    requires IsDone(Run(lanes, concurrency, acts), i)
    ensures var p, p' := Run(lanes, concurrency, acts), Run(lanes, concurrency, acts + more);
            IsDone(p', i) && FromLane(p'.log, i) == FromLane(p.log, i)
  {
    if more == [] {
      assert acts + more == acts;
    } else {
      var init, a := more[..|more| - 1], more[|more| - 1];
      DoneLanesStayDone(lanes, concurrency, acts, init, i);
      assert (acts + more)[..|acts + more| - 1] == acts + init && (acts + more)[|acts + more| - 1] == a;
      StepKeepsDone(lanes, concurrency, Run(lanes, concurrency, acts + init), a, i);
    }
  }

  /** The message lane `i` is working on cannot be recorded, or the publisher refuses it. */
  predicate Fails(lanes: seq<Batch>, p: Progress, a: Action, i: nat) {
    (a == Record(i, false) && At(lanes, p, i, Ready)) || (a == Publish(i, false) && At(lanes, p, i, Recorded))
  }

  /** Head-of-line blocking: after a failure a lane publishes nothing more in this run, whatever comes. */
  lemma FailureEndsTheLane(lanes: seq<Batch>, concurrency: nat, acts: seq<Action>, a: Action, more: seq<Action>, i: nat)
    requires Fails(lanes, Run(lanes, concurrency, acts), a, i)
    ensures FromLane(Run(lanes, concurrency, acts + [a] + more).log, i) == FromLane(Run(lanes, concurrency, acts).log, i)
  {
    assert (acts + [a])[..|acts|] == acts;
    DoneLanesStayDone(lanes, concurrency, acts + [a], more, i);
  }

  // ---------------------------------------------------------------- the sequential case

  /** What the first `n` lanes have published, lane after lane. */
  function Prefixes(lanes: seq<Batch>, p: Progress, n: nat): Batch
    requires n <= |lanes| == |p.lanes|
    requires forall i :: 0 <= i < |lanes| ==> SentCount(p.lanes[i]) <= |lanes[i]|
  {
    if n == 0 then [] else Prefixes(lanes, p, n - 1) + lanes[n - 1][..SentCount(p.lanes[n - 1])]
  }

  lemma {:induction false} PrefixesDependOnCounts(lanes: seq<Batch>, p: Progress, q: Progress, n: nat)
    requires n <= |lanes| == |p.lanes| == |q.lanes|
    requires forall i :: 0 <= i < |lanes| ==> SentCount(p.lanes[i]) <= |lanes[i]|
    requires forall i :: 0 <= i < |lanes| ==> SentCount(q.lanes[i]) <= |lanes[i]|
    requires forall i :: 0 <= i < n ==> SentCount(p.lanes[i]) == SentCount(q.lanes[i])
    ensures Prefixes(lanes, p, n) == Prefixes(lanes, q, n)
  {
    if n > 0 {
      PrefixesDependOnCounts(lanes, p, q, n - 1);
    }
  }

  ghost predicate SequentialInv(lanes: seq<Batch>, p: Progress) {
    && Inv(lanes, p)
    && (forall i :: 0 <= i < p.started - 1 ==> p.lanes[i].stage.Done?)
    && Messages(p.log) == Prefixes(lanes, p, p.started)
  }

  lemma SequentialStart(lanes: seq<Batch>, p: Progress)
    requires SequentialInv(lanes, p)
    ensures SequentialInv(lanes, Next(lanes, 1, p, Start))
  {
    var p' := Next(lanes, 1, p, Start);
    StepKeepsInv(lanes, 1, p, Start);
    if p' != p {
      assert Running(p) == {};
      forall i | 0 <= i < p.started ensures p.lanes[i].stage.Done? {
        assert i !in Running(p);
      }
      PrefixesDependOnCounts(lanes, p, p', p.started);
    }
  }

  lemma SequentialPublish(lanes: seq<Batch>, p: Progress, i: nat)
    requires SequentialInv(lanes, p) && At(lanes, p, i, Recorded)
    ensures SequentialInv(lanes, Next(lanes, 1, p, Publish(i, true)))
  {
    var p' := Next(lanes, 1, p, Publish(i, true));
    StepKeepsInv(lanes, 1, p, Publish(i, true));
    var pos := p.lanes[i].pos;
    assert i == p.started - 1;
    PrefixesDependOnCounts(lanes, p, p', i);
    SentFromLane(p.log, Sent(i, lanes[i][pos]));
    assert lanes[i][..pos + 1] == lanes[i][..pos] + [lanes[i][pos]];
  }

  lemma SequentialOther(lanes: seq<Batch>, p: Progress, a: Action)
    requires SequentialInv(lanes, p) && !a.Start? && Next(lanes, 1, p, a).log == p.log
    ensures SequentialInv(lanes, Next(lanes, 1, p, a))
  {
    StepKeepsInv(lanes, 1, p, a);
    PrefixesDependOnCounts(lanes, p, Next(lanes, 1, p, a), p.started);
  }

  lemma SequentialStep(lanes: seq<Batch>, p: Progress, a: Action)
    requires SequentialInv(lanes, p)
    ensures SequentialInv(lanes, Next(lanes, 1, p, a))
  {
    if a.Start? {
      SequentialStart(lanes, p);
    } else if a.Publish? && a.ok && At(lanes, p, a.i, Recorded) {
      SequentialPublish(lanes, p, a.i);
    } else {
      SequentialOther(lanes, p, a);
    }
  }

  predicate Succeeds(a: Action) {
    (a.Record? || a.Publish?) ==> a.ok
  }

  predicate AllSucceed(acts: seq<Action>) {
    forall i :: 0 <= i < |acts| ==> Succeeds(acts[i])
  }

  predicate Complete(lanes: seq<Batch>, p: Progress) {
    p.started == |lanes| == |p.lanes| && forall i :: 0 <= i < |p.lanes| ==> p.lanes[i].stage.Done?
  }

  /** One lane at a time, whatever fails: what was published is each lane's prefix, lane after lane. */
  lemma {:induction false} SequentialRun(lanes: seq<Batch>, acts: seq<Action>)
    ensures SequentialInv(lanes, Run(lanes, 1, acts))
  {
    if acts != [] {
      SequentialRun(lanes, acts[..|acts| - 1]);
      SequentialStep(lanes, Run(lanes, 1, acts[..|acts| - 1]), acts[|acts| - 1]);
    }
  }

  ghost predicate DoneLanesAreFull(lanes: seq<Batch>, p: Progress) {
    |p.lanes| == |lanes| && forall i :: 0 <= i < |lanes| && p.lanes[i].stage.Done? ==> p.lanes[i].pos == |lanes[i]|
  }

  lemma {:induction false} SucceedingLanesFinish(lanes: seq<Batch>, acts: seq<Action>)
    requires AllSucceed(acts)
    ensures DoneLanesAreFull(lanes, Run(lanes, 1, acts))
  {
    if acts != [] {
      var init := acts[..|acts| - 1];
      assert forall i :: 0 <= i < |init| ==> init[i] == acts[i];
      SucceedingLanesFinish(lanes, init);
      assert Succeeds(acts[|acts| - 1]);
    }
  }

  lemma {:induction false} FullPrefixesFlatten(lanes: seq<Batch>, p: Progress, n: nat)
    requires n <= |lanes| == |p.lanes|
    requires forall i :: 0 <= i < |lanes| ==> SentCount(p.lanes[i]) == |lanes[i]|
    ensures Prefixes(lanes, p, n) == Flatten(lanes[..n])
  {
    if n > 0 {
      FullPrefixesFlatten(lanes, p, n - 1);
      assert lanes[..n][..n - 1] == lanes[..n - 1];
    }
  }

  /** With one lane at a time and nothing failing, a finished run has published the lanes one after the other. */
  lemma SequentialOrder(batch: Batch, acts: seq<Action>)
    requires AllSucceed(acts)
    requires Complete(LanesOf(batch), Run(LanesOf(batch), 1, acts))
    ensures Messages(Run(LanesOf(batch), 1, acts).log) == Flatten(LanesOf(batch))
  {
    var lanes := LanesOf(batch);
    SequentialRun(lanes, acts);
    SucceedingLanesFinish(lanes, acts);
    FullPrefixesFlatten(lanes, Run(lanes, 1, acts), |lanes|);
    assert lanes[..|lanes|] == lanes;
  }

  /** Each key's messages stand together in the batch. */
  ghost predicate Grouped(batch: Batch) {
    forall i, j, k :: 0 <= i < j < k < |batch| && batch[i].key.Some? && batch[i].key == batch[k].key ==> batch[j].key == batch[i].key
  }

  lemma {:induction false} FlattenedKeyIsInSomeLane(lanes: seq<Batch>, x: nat)
    requires LanesOk(lanes) && x < |Flatten(lanes)|
    ensures exists i :: 0 <= i < |lanes| && lanes[i][0].key == Flatten(lanes)[x].key
  {
    var n := |lanes| - 1;
    var front := Flatten(lanes[..n]);
    if x < |front| {
      FlattenedKeyIsInSomeLane(lanes[..n], x);
      var i :| 0 <= i < n && lanes[..n][i][0].key == front[x].key;
      assert lanes[i][0].key == Flatten(lanes)[x].key;
    } else {
      assert lanes[n][x - |front|] == Flatten(lanes)[x];
    }
  }

  lemma {:induction false} FlattenedLanesAreGrouped(lanes: seq<Batch>)
    requires LanesOk(lanes)
    ensures Grouped(Flatten(lanes))
  {
    if lanes != [] {
      var n := |lanes| - 1;
      FlattenedLanesAreGrouped(lanes[..n]);
      var front, all := Flatten(lanes[..n]), Flatten(lanes);
      forall i, j, k | 0 <= i < j < k < |all| && all[i].key.Some? && all[i].key == all[k].key
        ensures all[j].key == all[i].key
      {
        if k >= |front| {
          assert all[k].key == lanes[n][0].key;
          if i < |front| {
            FlattenedKeyIsInSomeLane(lanes[..n], i);
          }
        }
      }
    }
  }

  lemma LastLaneEndsTheBatch(lanes: seq<Batch>)
    requires LanesOk(lanes) && lanes != []
    ensures Flatten(lanes) != [] && Flatten(lanes)[|Flatten(lanes)| - 1].key == lanes[|lanes| - 1][0].key
  {
  }

  /** In a grouped batch a repeated key can only repeat the last lane. */
  lemma RepeatedKeyIsTheLastLane(init: Batch, m: OutboxMessage, lanes: seq<Batch>, i: nat)
    requires Grouped(init + [m]) && LanesOk(lanes) && Flatten(lanes) == init
    requires i < |lanes| && m.key.Some? && lanes[i][0].key == m.key
    ensures i == |lanes| - 1
  {
    LaneHeadIsInBatch(lanes, i);
    var x :| 0 <= x < |init| && init[x].key == lanes[i][0].key;
    LastLaneEndsTheBatch(lanes);
    var batch := init + [m];
    assert batch[x].key == batch[|init|].key;
    assert x < |init| - 1 ==> batch[|init| - 1].key == m.key;
  }

  lemma FlattenLastLane(lanes: seq<Batch>, m: OutboxMessage)
    requires lanes != []
    ensures Flatten(Appended(lanes, |lanes| - 1, m)) == Flatten(lanes) + [m]
  {
    var n := |lanes| - 1;
    var lanes' := Appended(lanes, n, m);
    assert lanes'[..n] == lanes[..n] && lanes'[n] == lanes[n] + [m];
    assert Flatten(lanes[..n]) + (lanes[n] + [m]) == (Flatten(lanes[..n]) + lanes[n]) + [m];
  }

  lemma {:induction false} GroupedBatchKeepsOrder(batch: Batch)
    requires Grouped(batch)
    ensures Flatten(LanesOf(batch)) == batch
  {
    if batch != [] {
      var n := |batch| - 1;
      var init, m := batch[..n], batch[n];
      assert batch == init + [m];
      assert Grouped(init) by {
        assert forall i :: 0 <= i < n ==> init[i] == batch[i];
      }
      GroupedBatchKeepsOrder(init);
      LanesPartitionTheBatch(init);
      var lanes := LanesOf(init);
      match LaneFor(lanes, m.key) {
        case None => FlattenNewLane(lanes, m);
        case Some(i) =>
          RepeatedKeyIsTheLastLane(init, m, lanes, i);
          FlattenLastLane(lanes, m);
      }
    }
  }

  lemma {:induction false} LaneHeadIsInBatch(lanes: seq<Batch>, i: nat)
    requires LanesOk(lanes) && i < |lanes|
    ensures exists x :: 0 <= x < |Flatten(lanes)| && Flatten(lanes)[x].key == lanes[i][0].key
  {
    var n := |lanes| - 1;
    var front := Flatten(lanes[..n]);
    if i == n {
      assert Flatten(lanes)[|front|] == lanes[n][0];
    } else {
      LaneHeadIsInBatch(lanes[..n], i);
      var x :| 0 <= x < |front| && front[x].key == lanes[i][0].key;
      assert Flatten(lanes)[x] == front[x];
    }
  }

  /** Lanes read one after the other give the batch back exactly when no key reappears after another lane. */
  lemma LanesKeepOrderExactlyWhenGrouped(batch: Batch)
    ensures Flatten(LanesOf(batch)) == batch <==> Grouped(batch)
  {
    LanesPartitionTheBatch(batch);
    if Grouped(batch) {
      GroupedBatchKeepsOrder(batch);
    }
    FlattenedLanesAreGrouped(LanesOf(batch));
  }

  /** A finished run without failures keeps the claim order exactly for grouped batches. */
  lemma FinishedRunKeepsOrderExactlyWhenGrouped(batch: Batch, acts: seq<Action>)
    requires AllSucceed(acts)
    requires Complete(LanesOf(batch), Run(LanesOf(batch), 1, acts))
    ensures Messages(Run(LanesOf(batch), 1, acts).log) == batch <==> Grouped(batch)
  {
    SequentialOrder(batch, acts);
    LanesKeepOrderExactlyWhenGrouped(batch);
  }

  // ---------------------------------------------------------------- every batch has a finished run

  lemma Extended(lanes: seq<Batch>, acts: seq<Action>, a: Action)
    ensures Run(lanes, 1, acts + [a]) == Next(lanes, 1, Run(lanes, 1, acts), a)
  {
    assert (acts + [a])[..|acts|] == acts;
  }

  function Passed(lanes: seq<Batch>, p: Progress, i: nat): Lane
    requires At(lanes, p, i, Ready)
  {
    var next := p.lanes[i].pos + 1;
    Lane(next, if next == |lanes[i]| then Done else Ready)
  }

  /** Record, publish and book take a ready lane past its current message. */
  lemma OneMessage(lanes: seq<Batch>, p: Progress, i: nat)
    requires At(lanes, p, i, Ready)
    ensures var p' := Next(lanes, 1, Next(lanes, 1, Next(lanes, 1, p, Record(i, true)), Publish(i, true)), Book(i));
            p'.started == p.started && p'.lanes == p.lanes[i := Passed(lanes, p, i)]
  {
  }

  /** A ready lane can be run to its end. */
  lemma {:induction false} FinishLane(lanes: seq<Batch>, acts: seq<Action>, i: nat) returns (more: seq<Action>)
    requires AllSucceed(acts) && At(lanes, Run(lanes, 1, acts), i, Ready)
    ensures AllSucceed(more)
    ensures var p, p' := Run(lanes, 1, acts), Run(lanes, 1, more);
            p'.started == p.started && p'.lanes == p.lanes[i := Lane(|lanes[i]|, Done)]
    decreases |lanes[i]| - Run(lanes, 1, acts).lanes[i].pos
  {
    var p := Run(lanes, 1, acts);
    Extended(lanes, acts, Record(i, true));
    Extended(lanes, acts + [Record(i, true)], Publish(i, true));
    Extended(lanes, acts + [Record(i, true)] + [Publish(i, true)], Book(i));
    OneMessage(lanes, p, i);
    more := acts + [Record(i, true)] + [Publish(i, true)] + [Book(i)];
    if p.lanes[i].pos + 1 < |lanes[i]| {
      more := FinishLane(lanes, more, i);
    }
  }

  ghost predicate DoneUpTo(lanes: seq<Batch>, p: Progress, k: nat) {
    && |p.lanes| == |lanes| && p.started == k <= |lanes|
    && (forall i :: 0 <= i < k ==> p.lanes[i].stage.Done?)
    && (forall i :: k <= i < |lanes| ==> p.lanes[i] == Lane(0, Ready))
  }

  lemma StartNextLane(lanes: seq<Batch>, p: Progress, k: nat)
    requires DoneUpTo(lanes, p, k) && k < |lanes| && lanes[k] != []
    ensures var p' := Next(lanes, 1, p, Start); p' == p.(started := k + 1) && At(lanes, p', k, Ready)
  {
    assert Running(p) == {};
  }

  lemma {:induction false} RunLanes(lanes: seq<Batch>, k: nat) returns (acts: seq<Action>)
    requires k <= |lanes| && forall i :: 0 <= i < |lanes| ==> lanes[i] != []
    ensures AllSucceed(acts) && DoneUpTo(lanes, Run(lanes, 1, acts), k)
  {
    if k == 0 {
      acts := [];
    } else {
      acts := RunLanes(lanes, k - 1);
      StartNextLane(lanes, Run(lanes, 1, acts), k - 1);
      Extended(lanes, acts, Start);
      acts := FinishLane(lanes, acts + [Start], k - 1);
    }
  }

  /** Every batch has a finished run without failures at concurrency one. */
  lemma FinishedRunExists(batch: Batch) returns (acts: seq<Action>)
    ensures AllSucceed(acts) && Complete(LanesOf(batch), Run(LanesOf(batch), 1, acts))
  {
    LanesPartitionTheBatch(batch);
    assert forall i :: 0 <= i < |LanesOf(batch)| ==> LaneOk(LanesOf(batch)[i]);
    acts := RunLanes(LanesOf(batch), |LanesOf(batch)|);
  }

  lemma LanesOfInterleaved(a: OutboxMessage, b: OutboxMessage, c: OutboxMessage)
    requires a.key.Some? && c.key == a.key && b.key != a.key
    ensures LanesOf([a, b, c]) == [[a, c], [b]]
  {
    assert [a, b, c][..2] == [a, b] && [a, b][..1] == [a] && [a][..0] == [];
    assert LanesOf([a]) == [[a]];
    assert LanesOf([a, b]) == [[a], [b]] by {
      NewLaneFor([], a, b.key);
      assert [] + [[a]] == [[a]];
    }
    NewLaneFor([[a]], b, c.key);
    NewLaneFor([], a, c.key);
    assert [] + [[a]] == [[a]] && [[a]] + [[b]] == [[a], [b]];
    assert LaneFor([[a], [b]], c.key) == Some(0);
    assert [a] + [c] == [a, c];
    assert Appended([[a], [b]], 0, c) == [[a, c], [b]];
  }

  /** The smallest reordering: a finished run without failures on two messages of one key around another. */
  lemma InterleavedKeysAreReordered(a: OutboxMessage, b: OutboxMessage, c: OutboxMessage) returns (acts: seq<Action>)
    requires a.key.Some? && c.key == a.key && b.key != a.key
    ensures AllSucceed(acts) && Complete(LanesOf([a, b, c]), Run(LanesOf([a, b, c]), 1, acts))
    ensures Messages(Run(LanesOf([a, b, c]), 1, acts).log) == [a, c, b] != [a, b, c]
  {
    acts := FinishedRunExists([a, b, c]);
    SequentialOrder([a, b, c], acts);
    LanesOfInterleaved(a, b, c);
    assert [[a, c], [b]][..1] == [[a, c]] && [[a, c]][..0] == [];
    assert Flatten([[a, c]]) == [a, c];
    assert b != c;
  }

  // ---------------------------------------------------------------- runs with failures

  /** `xs` is `ys` with some messages left out. */
  ghost predicate Subsequence(xs: Batch, ys: Batch) {
    || xs == []
    || (ys != [] && Subsequence(xs, ys[..|ys| - 1]))
    || (ys != [] && xs[|xs| - 1] == ys[|ys| - 1] && Subsequence(xs[..|xs| - 1], ys[..|ys| - 1]))
  }

  lemma {:induction false} SubsequencesJoin(a: Batch, c: Batch, b: Batch, d: Batch)
    requires Subsequence(a, b) && Subsequence(c, d)
    ensures Subsequence(a + c, b + d)
    decreases |d|
  {
    if d == [] {
      assert a + c == a && b + d == b;
    } else {
      var n := |d| - 1;
      assert (b + d)[..|b + d| - 1] == b + d[..n];
      if Subsequence(c, d[..n]) {
        SubsequencesJoin(a, c, b, d[..n]);
      } else {
        SubsequencesJoin(a, c[..|c| - 1], b, d[..n]);
        assert (a + c)[..|a + c| - 1] == a + c[..|c| - 1];
      }
    }
  }

  lemma {:induction false} PrefixIsSubsequence(s: Batch, k: nat)
    requires k <= |s|
    ensures Subsequence(s[..k], s)
  {
    if s != [] {
      var n := |s| - 1;
      if k <= n {
        assert s[..n][..k] == s[..k];
        PrefixIsSubsequence(s[..n], k);
      } else {
        PrefixIsSubsequence(s[..n], n);
        assert s[..k] == s && s[..n][..n] == s[..n];
      }
    }
  }

  lemma {:induction false} FullSubsequence(xs: Batch, ys: Batch)
    requires Subsequence(xs, ys)
    ensures |xs| <= |ys| && (|xs| == |ys| ==> xs == ys)
  {
    if xs != [] {
      var m, n := |xs| - 1, |ys| - 1;
      if Subsequence(xs, ys[..n]) {
        FullSubsequence(xs, ys[..n]);
      } else {
        FullSubsequence(xs[..m], ys[..n]);
        assert xs == xs[..m] + [xs[m]] && ys == ys[..n] + [ys[n]];
      }
    }
  }

  lemma {:induction false} PrefixesAreASubsequence(lanes: seq<Batch>, p: Progress, n: nat, m: nat)
    requires n <= m <= |lanes| == |p.lanes|
    requires forall i :: 0 <= i < |lanes| ==> SentCount(p.lanes[i]) <= |lanes[i]|
    ensures Subsequence(Prefixes(lanes, p, n), Flatten(lanes[..m]))
    decreases m
  {
    if m > 0 {
      assert lanes[..m][..m - 1] == lanes[..m - 1];
      if n == m {
        PrefixesAreASubsequence(lanes, p, n - 1, m - 1);
        PrefixIsSubsequence(lanes[m - 1], SentCount(p.lanes[m - 1]));
        SubsequencesJoin(Prefixes(lanes, p, n - 1), lanes[m - 1][..SentCount(p.lanes[m - 1])], Flatten(lanes[..m - 1]), lanes[m - 1]);
      } else {
        PrefixesAreASubsequence(lanes, p, n, m - 1);
        SubsequencesJoin(Prefixes(lanes, p, n), [], Flatten(lanes[..m - 1]), lanes[m - 1]);
        assert Prefixes(lanes, p, n) + [] == Prefixes(lanes, p, n);
      }
    }
  }

  /** One lane at a time, with any failures, publishes the lanes in order with messages left out. */
  lemma SequentialRunsFollowTheLanes(lanes: seq<Batch>, acts: seq<Action>)
    ensures Subsequence(Messages(Run(lanes, 1, acts).log), Flatten(lanes))
  {
    SequentialRun(lanes, acts);
    var p := Run(lanes, 1, acts);
    PrefixesAreASubsequence(lanes, p, p.started, |lanes|);
    assert lanes[..|lanes|] == lanes;
  }

  lemma LanesHoldTheBatch(batch: Batch)
    ensures |Flatten(LanesOf(batch))| == |batch|
  {
    LanesPartitionTheBatch(batch);
    assert |multiset(Flatten(LanesOf(batch)))| == |multiset(batch)|;
  }

  /**
   * The documentation says that the default concurrency of one preserves the
   * claim order. Every run does, with whatever fails left out, exactly for
   * batches in which no key reappears after a message of another lane.
   */
  lemma ClaimOrderKeptExactlyWhenGrouped(batch: Batch)
    ensures (forall acts :: Subsequence(Messages(Run(LanesOf(batch), 1, acts).log), batch)) <==> Grouped(batch)
  {
    if Grouped(batch) {
      GroupedBatchKeepsOrder(batch);
      forall acts ensures Subsequence(Messages(Run(LanesOf(batch), 1, acts).log), batch) {
        SequentialRunsFollowTheLanes(LanesOf(batch), acts);
      }
    } else {
      var acts := FinishedRunExists(batch);
      var sent := Messages(Run(LanesOf(batch), 1, acts).log);
      SequentialOrder(batch, acts);
      LanesHoldTheBatch(batch);
      LanesKeepOrderExactlyWhenGrouped(batch);
      if Subsequence(sent, batch) {
        FullSubsequence(sent, batch);
      }
    }
  }
}
