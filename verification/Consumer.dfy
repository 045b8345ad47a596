/**
 * The idempotent consumer: an in-memory inbox and broker, the
 * `process_idempotent_with_retry` flow over them, and the loop that drains a
 * topic with a single consumer. The inbox is scoped to that one consumer name.
 */
module Consumer {
  import opened Common
  import opened RetryPolicy

  type MsgId(==, !new)

  datatype InboxStatus = Processing | Completed | Failed

  datatype InboxRecord = InboxRecord(status: InboxStatus, updatedAt: int)

  type Inbox = map<MsgId, InboxRecord>

  datatype Delivery = Delivery(id: MsgId, attempt: nat)

  datatype DeadLetter = DeadLetter(id: MsgId, attempts: nat)

  datatype IdempotencyDecision = StartProcessing | AlreadyProcessing | AlreadyCompleted | RetryPreviousFailure

  datatype Outcome = Processed | SkippedDuplicate | StillProcessing | HandlerFailed

  datatype Config = Config(maxAttempts: nat, staleAfter: int)

  /** Everything the flow touches. `runs` counts how often each message's handler ran. */
  datatype Desk = Desk(queue: seq<Delivery>, acked: set<MsgId>, nacked: set<MsgId>, inbox: Inbox,
                       dlq: seq<DeadLetter>, runs: map<MsgId, nat>)

  // ---------------------------------------------------------------- the flow on values

  /** `begin_processing`: a `Processing` record blocks until it is stale; then it is taken over. */
  function BeginDecision(cfg: Config, inbox: Inbox, id: MsgId, now: int): IdempotencyDecision {
    if id !in inbox then StartProcessing
    else
      match inbox[id].status
      case Processing => if inbox[id].updatedAt > now - cfg.staleAfter then AlreadyProcessing else StartProcessing
      case Completed => AlreadyCompleted
      case Failed => RetryPreviousFailure
  }

  /** Decisions on which the handler runs. */
  predicate Handled(decision: IdempotencyDecision) {
    decision.StartProcessing? || decision.RetryPreviousFailure?
  }

  function InboxAfterBegin(cfg: Config, inbox: Inbox, id: MsgId, now: int): Inbox {
    if BeginDecision(cfg, inbox, id, now).StartProcessing? then inbox[id := InboxRecord(Processing, now)] else inbox
  }

  function RunsOf(desk: Desk, id: MsgId): nat {
    if id in desk.runs then desk.runs[id] else 0
  }

  function Requeued(queue: seq<Delivery>, d: Delivery): seq<Delivery> {
    queue + [d.(attempt := d.attempt + 1)]
  }

  /** The whole flow for one delivery taken off the queue; `ok` is what the handler says if it runs. */
  function AfterProcess(cfg: Config, desk: Desk, d: Delivery, ok: bool, now: int): Desk {
    match BeginDecision(cfg, desk.inbox, d.id, now)
    case AlreadyCompleted => desk.(acked := desk.acked + {d.id})
    case AlreadyProcessing => desk.(nacked := desk.nacked + {d.id}, queue := Requeued(desk.queue, d))
    case _ =>
      var ran := desk.(runs := desk.runs[d.id := RunsOf(desk, d.id) + 1]);
      if ok then
        ran.(inbox := desk.inbox[d.id := InboxRecord(Completed, now)], acked := desk.acked + {d.id})
      else if Decide(cfg.maxAttempts, d.attempt).RetryAfter? then
        ran.(inbox := desk.inbox[d.id := InboxRecord(Failed, now)],
             nacked := desk.nacked + {d.id}, queue := Requeued(desk.queue, d))
      else
        ran.(inbox := desk.inbox[d.id := InboxRecord(Failed, now)],
             nacked := desk.nacked + {d.id}, dlq := desk.dlq + [DeadLetter(d.id, d.attempt)])
  }

  predicate HeldByAnother(cfg: Config, inbox: Inbox, id: MsgId, now: int) {
    id in inbox && inbox[id].status == Processing && inbox[id].updatedAt > now - cfg.staleAfter
  }

  /** The flow, record by record: what happens to a completed, a held and a handled message, and to nothing else. */
  lemma ProcessingMeans(cfg: Config, desk: Desk, d: Delivery, ok: bool, now: int)
    ensures var after := AfterProcess(cfg, desk, d, ok, now);
            var again := desk.queue + [Delivery(d.id, d.attempt + 1)];
            var runs := desk.runs[d.id := (if d.id in desk.runs then desk.runs[d.id] else 0) + 1];
            if d.id in desk.inbox && desk.inbox[d.id].status == Completed then
              after == Desk(desk.queue, desk.acked + {d.id}, desk.nacked, desk.inbox, desk.dlq, desk.runs)
            else if HeldByAnother(cfg, desk.inbox, d.id, now) then
              after == Desk(again, desk.acked, desk.nacked + {d.id}, desk.inbox, desk.dlq, desk.runs)
            else if ok then
              after == Desk(desk.queue, desk.acked + {d.id}, desk.nacked, desk.inbox[d.id := InboxRecord(Completed, now)], desk.dlq, runs)
            else if d.attempt < cfg.maxAttempts then
              after == Desk(again, desk.acked, desk.nacked + {d.id}, desk.inbox[d.id := InboxRecord(Failed, now)], desk.dlq, runs)
            else
              after == Desk(desk.queue, desk.acked, desk.nacked + {d.id}, desk.inbox[d.id := InboxRecord(Failed, now)],
                            desk.dlq + [DeadLetter(d.id, d.attempt)], runs)
  {
  }

  // ---------------------------------------------------------------- what the loop keeps

  function Parked(dlq: seq<DeadLetter>, id: MsgId): nat {
    if dlq == [] then 0 else Parked(dlq[..|dlq| - 1], id) + (if dlq[|dlq| - 1].id == id then 1 else 0)
  }

  predicate StatusIs(inbox: Inbox, id: MsgId, status: InboxStatus) {
    id in inbox && inbox[id].status == status
  }

  /** A message still queued at some attempt: untouched by any verdict, handled once per earlier attempt. */
  predicate Waiting(cfg: Config, desk: Desk, d: Delivery) {
    && 1 <= d.attempt <= Budget(cfg.maxAttempts)
    && d.id !in desk.acked && Parked(desk.dlq, d.id) == 0
    && !StatusIs(desk.inbox, d.id, Processing)
    && RunsOf(desk, d.id) == d.attempt - 1
  }

  predicate Done(desk: Desk, id: MsgId) {
    id in desk.acked && StatusIs(desk.inbox, id, Completed) && Parked(desk.dlq, id) == 0
  }

  predicate Dead(desk: Desk, id: MsgId) {
    id !in desk.acked && StatusIs(desk.inbox, id, Failed) && Parked(desk.dlq, id) == 1
  }

  /** The two verdicts; by their definition they exclude each other. */
  predicate Verdict(cfg: Config, desk: Desk, id: MsgId) {
    (Done(desk, id) || Dead(desk, id)) && RunsOf(desk, id) <= Budget(cfg.maxAttempts)
  }

  ghost predicate Queued(queue: seq<Delivery>, id: MsgId) {
    exists i :: 0 <= i < |queue| && queue[i].id == id
  }

  ghost predicate DistinctIds(queue: seq<Delivery>) {
    forall i, j :: 0 <= i < j < |queue| ==> queue[i].id != queue[j].id
  }

  /** Every message of the batch is either queued once or has its verdict. */
  ghost predicate Inv(cfg: Config, ids: set<MsgId>, desk: Desk) {
    && DistinctIds(desk.queue)
    && (forall i :: 0 <= i < |desk.queue| ==> desk.queue[i].id in ids && Waiting(cfg, desk, desk.queue[i]))
    && (forall id :: id in ids && !Queued(desk.queue, id) ==> Verdict(cfg, desk, id))
    && (forall i :: 0 <= i < |desk.dlq| ==> desk.dlq[i].attempts == Budget(cfg.maxAttempts))
  }

  /** Remaining attempts, summed over the queue. */
  function Remaining(cfg: Config, queue: seq<Delivery>): nat {
    if queue == [] then 0
    else
      var d := queue[|queue| - 1];
      Remaining(cfg, queue[..|queue| - 1]) + (if d.attempt <= Budget(cfg.maxAttempts) then Budget(cfg.maxAttempts) + 1 - d.attempt else 1)
  }

  lemma {:induction false} RemainingSplits(cfg: Config, front: seq<Delivery>, back: seq<Delivery>)
    ensures Remaining(cfg, front + back) == Remaining(cfg, front) + Remaining(cfg, back)
  {
    if back == [] {
      assert front + back == front;
    } else {
      RemainingSplits(cfg, front, back[..|back| - 1]);
      assert (front + back)[..|front + back| - 1] == front + back[..|back| - 1];
    }
  }

  /** Taking one delivery and processing it uses up at least one remaining attempt. */
  lemma ProcessingUsesUpAttempts(cfg: Config, desk: Desk, ok: bool, now: int)
    requires desk.queue != [] && Waiting(cfg, desk, desk.queue[0])
    ensures var d := desk.queue[0];
            Remaining(cfg, AfterProcess(cfg, desk.(queue := desk.queue[1..]), d, ok, now).queue) < Remaining(cfg, desk.queue)
  {
    var d, rest := desk.queue[0], desk.queue[1..];
    assert desk.queue == [d] + rest;
    RemainingSplits(cfg, [d], rest);
    RemainingSplits(cfg, rest, [d.(attempt := d.attempt + 1)]);
  }

  /** The messages other than the one processed keep their standing. */
  lemma OthersAreUntouched(cfg: Config, desk: Desk, d: Delivery, ok: bool, now: int, id: MsgId)
    requires id != d.id
    ensures var after := AfterProcess(cfg, desk, d, ok, now);
            && (forall a :: Waiting(cfg, after, Delivery(id, a)) <==> Waiting(cfg, desk, Delivery(id, a)))
            && (Verdict(cfg, after, id) <==> Verdict(cfg, desk, id))
  {
    var after := AfterProcess(cfg, desk, d, ok, now);
    assert (desk.dlq + [DeadLetter(d.id, d.attempt)])[..|desk.dlq|] == desk.dlq;
    assert Parked(after.dlq, id) == Parked(desk.dlq, id) && RunsOf(after, id) == RunsOf(desk, id);
    assert id in after.acked <==> id in desk.acked;
    assert forall status :: StatusIs(after.inbox, id, status) == StatusIs(desk.inbox, id, status);
  }

  /** The processed message is requeued once with one more attempt, or has its verdict. */
  lemma ProcessedIsSettledOrRequeued(cfg: Config, desk: Desk, d: Delivery, ok: bool, now: int)
    requires Waiting(cfg, desk, d)
    ensures var after := AfterProcess(cfg, desk, d, ok, now);
            || (after.queue == desk.queue && Verdict(cfg, after, d.id))
            || (after.queue == Requeued(desk.queue, d) && Waiting(cfg, after, d.(attempt := d.attempt + 1)))
  {
    assert (desk.dlq + [DeadLetter(d.id, d.attempt)])[..|desk.dlq|] == desk.dlq;
  }

  lemma QueueMembership(queue: seq<Delivery>, after: seq<Delivery>, id: MsgId)
    requires queue != [] && (after == queue[1..] || after == Requeued(queue[1..], queue[0]))
    ensures id != queue[0].id && Queued(queue, id) ==> Queued(after, id)
    ensures after == Requeued(queue[1..], queue[0]) ==> Queued(after, queue[0].id)
  {
    if i :| 0 <= i < |queue| && queue[i].id == id && i > 0 {
      assert after[i - 1].id == id;
    }
    if after == Requeued(queue[1..], queue[0]) {
      assert after[|queue| - 1].id == queue[0].id;
    }
  }

  lemma QueueStaysWaiting(cfg: Config, desk: Desk, d: Delivery, ok: bool, now: int, q: Delivery)
    requires q.id != d.id && Waiting(cfg, desk, q)
    ensures Waiting(cfg, AfterProcess(cfg, desk, d, ok, now), q)
  {
    OthersAreUntouched(cfg, desk, d, ok, now, q.id);
    assert q == Delivery(q.id, q.attempt);
  }

  lemma ProcessKeepsInv(cfg: Config, ids: set<MsgId>, desk: Desk, ok: bool, now: int)
    requires Inv(cfg, ids, desk) && desk.queue != []
    ensures Inv(cfg, ids, AfterProcess(cfg, desk.(queue := desk.queue[1..]), desk.queue[0], ok, now))
  {
    var d, popped := desk.queue[0], desk.(queue := desk.queue[1..]);
    var after := AfterProcess(cfg, popped, d, ok, now);
    ProcessedIsSettledOrRequeued(cfg, popped, d, ok, now);
    forall i | 0 <= i < |after.queue| ensures after.queue[i].id in ids && Waiting(cfg, after, after.queue[i]) {
      if i < |popped.queue| {
        assert after.queue[i] == desk.queue[i + 1];
        assert Waiting(cfg, popped, desk.queue[i + 1]);
        QueueStaysWaiting(cfg, popped, d, ok, now, desk.queue[i + 1]);
      }
    }
    forall id | id in ids && !Queued(after.queue, id) ensures Verdict(cfg, after, id) {
      QueueMembership(desk.queue, after.queue, id);
      if id != d.id {
        assert Verdict(cfg, desk, id) && Verdict(cfg, popped, id);
        OthersAreUntouched(cfg, popped, d, ok, now, id);
      }
    }
  }

  // ---------------------------------------------------------------- which verdict a message gets

  type Handler = (MsgId, nat) -> bool

  ghost predicate Succeeds(cfg: Config, handler: Handler, id: MsgId) {
    exists a :: 1 <= a <= Budget(cfg.maxAttempts) && handler(id, a)
  }

  /** `done` are the messages whose inbox record was Completed before the loop began. */
  ghost predicate StillOpen(handler: Handler, done: set<MsgId>, desk: Desk, d: Delivery) {
    && (StatusIs(desk.inbox, d.id, Completed) <==> d.id in done)
    && (d.id in done ==> d.attempt == 1)
    && (forall a :: 1 <= a < d.attempt ==> !handler(d.id, a))
  }

  /** How often the handler ran: not at all, until it succeeded, or until the attempts were used up. */
  ghost predicate RanExactly(cfg: Config, handler: Handler, done: set<MsgId>, desk: Desk, id: MsgId) {
    var n := RunsOf(desk, id);
    if id in done then n == 0
    else
      && 1 <= n <= Budget(cfg.maxAttempts) && (forall a :: 1 <= a < n ==> !handler(id, a))
      && (handler(id, n) || n == Budget(cfg.maxAttempts))
  }

  ghost predicate Fated(cfg: Config, handler: Handler, done: set<MsgId>, desk: Desk, id: MsgId) {
    && (Done(desk, id) <==> id in done || Succeeds(cfg, handler, id))
    && RanExactly(cfg, handler, done, desk, id)
  }

  ghost predicate FateInv(cfg: Config, handler: Handler, ids: set<MsgId>, done: set<MsgId>, desk: Desk) {
    && (forall i :: 0 <= i < |desk.queue| ==> StillOpen(handler, done, desk, desk.queue[i]))
    && (forall id :: id in ids && !Queued(desk.queue, id) ==> Fated(cfg, handler, done, desk, id))
  }

  lemma ProcessDecidesFate(cfg: Config, handler: Handler, done: set<MsgId>, desk: Desk, d: Delivery, now: int)
    requires Waiting(cfg, desk, d) && StillOpen(handler, done, desk, d)
    ensures var after := AfterProcess(cfg, desk, d, handler(d.id, d.attempt), now);
            || (after.queue == Requeued(desk.queue, d) && StillOpen(handler, done, after, d.(attempt := d.attempt + 1)))
            || (after.queue == desk.queue && Fated(cfg, handler, done, after, d.id))
  {
    assert (desk.dlq + [DeadLetter(d.id, d.attempt)])[..|desk.dlq|] == desk.dlq;
  }

  lemma OthersKeepFate(cfg: Config, handler: Handler, done: set<MsgId>, desk: Desk, d: Delivery, ok: bool, now: int, id: MsgId)
    requires id != d.id
    ensures var after := AfterProcess(cfg, desk, d, ok, now);
            && (forall a :: StillOpen(handler, done, after, Delivery(id, a)) <==> StillOpen(handler, done, desk, Delivery(id, a)))
            && (Fated(cfg, handler, done, after, id) <==> Fated(cfg, handler, done, desk, id))
  {
    var after := AfterProcess(cfg, desk, d, ok, now);
    assert (desk.dlq + [DeadLetter(d.id, d.attempt)])[..|desk.dlq|] == desk.dlq;
    assert Parked(after.dlq, id) == Parked(desk.dlq, id) && RunsOf(after, id) == RunsOf(desk, id);
    assert StatusIs(after.inbox, id, Completed) == StatusIs(desk.inbox, id, Completed);
  }

  lemma QueueStaysOpen(cfg: Config, handler: Handler, done: set<MsgId>, desk: Desk, d: Delivery, ok: bool, now: int, q: Delivery)
    requires q.id != d.id && StillOpen(handler, done, desk, q)
    ensures StillOpen(handler, done, AfterProcess(cfg, desk, d, ok, now), q)
  {
    OthersKeepFate(cfg, handler, done, desk, d, ok, now, q.id);
    assert q == Delivery(q.id, q.attempt);
  }

  lemma ProcessKeepsFate(cfg: Config, handler: Handler, ids: set<MsgId>, done: set<MsgId>, desk: Desk, now: int)
    requires Inv(cfg, ids, desk) && FateInv(cfg, handler, ids, done, desk) && desk.queue != []
    ensures var d := desk.queue[0];
            FateInv(cfg, handler, ids, done, AfterProcess(cfg, desk.(queue := desk.queue[1..]), d, handler(d.id, d.attempt), now))
  {
    var d, popped := desk.queue[0], desk.(queue := desk.queue[1..]);
    var ok := handler(d.id, d.attempt);
    var after := AfterProcess(cfg, popped, d, ok, now);
    ProcessDecidesFate(cfg, handler, done, popped, d, now);
    forall i | 0 <= i < |after.queue| ensures StillOpen(handler, done, after, after.queue[i]) {
      if i < |popped.queue| {
        assert after.queue[i] == desk.queue[i + 1];
        QueueStaysOpen(cfg, handler, done, popped, d, ok, now, desk.queue[i + 1]);
      }
    }
    forall id | id in ids && !Queued(after.queue, id) ensures Fated(cfg, handler, done, after, id) {
      QueueMembership(desk.queue, after.queue, id);
      if id != d.id {
        assert Fated(cfg, handler, done, desk, id) <==> Fated(cfg, handler, done, popped, id);
        OthersKeepFate(cfg, handler, done, popped, d, ok, now, id);
      }
    }
  }

  function AfterTurn(cfg: Config, desk: Desk, handler: Handler, now: int): Desk
    requires desk.queue != []
  {
    var d := desk.queue[0];
    AfterProcess(cfg, desk.(queue := desk.queue[1..]), d, handler(d.id, d.attempt), now)
  }

  lemma TurnKeeps(cfg: Config, handler: Handler, ids: set<MsgId>, done: set<MsgId>, desk: Desk, now: int)
    requires Inv(cfg, ids, desk) && FateInv(cfg, handler, ids, done, desk) && desk.queue != []
    ensures var after := AfterTurn(cfg, desk, handler, now);
            Inv(cfg, ids, after) && FateInv(cfg, handler, ids, done, after)
            && Remaining(cfg, after.queue) < Remaining(cfg, desk.queue)
  {
    var d := desk.queue[0];
    ProcessingUsesUpAttempts(cfg, desk, handler(d.id, d.attempt), now);
    ProcessKeepsInv(cfg, ids, desk, handler(d.id, d.attempt), now);
    ProcessKeepsFate(cfg, handler, ids, done, desk, now);
  }

  // ---------------------------------------------------------------- inbox, broker and the consumer loop

  class IdempotentConsumer {
    const cfg: Config
    var queue: seq<Delivery>
    var acked: set<MsgId>
    var nacked: set<MsgId>
    var inbox: Inbox
    var dlq: seq<DeadLetter>
    var runs: map<MsgId, nat>

    constructor (cfg: Config, queue: seq<Delivery>, inbox: Inbox)
      ensures this.cfg == cfg && View() == Desk(queue, {}, {}, inbox, [], map[])
    {
      this.cfg := cfg;
      this.queue := queue;
      this.inbox := inbox;
      acked, nacked, dlq, runs := {}, {}, [], map[];
    }

    function View(): Desk reads this {
      Desk(queue, acked, nacked, inbox, dlq, runs)
    }

    method TakeNext() returns (d: Option<Delivery>)
      modifies this`queue
      ensures old(queue) == [] ==> d.None? && queue == []
      ensures old(queue) != [] ==> d == Some(old(queue)[0]) && queue == old(queue)[1..]
    {
      if queue == [] {
        return None;
      }
      d := Some(queue[0]);
      queue := queue[1..];
    }

    method Ack(d: Delivery)
      modifies this`acked
      ensures acked == old(acked) + {d.id}
    {
      acked := acked + {d.id};
    }

    method Nack(d: Delivery, requeue: bool)
      modifies this`nacked, this`queue
      ensures nacked == old(nacked) + {d.id}
      ensures queue == if requeue then Requeued(old(queue), d) else old(queue)
    {
      nacked := nacked + {d.id};
      if requeue {
        queue := queue + [d.(attempt := d.attempt + 1)];
      }
    }

    method BeginProcessing(id: MsgId, now: int) returns (decision: IdempotencyDecision)
      modifies this`inbox
      ensures decision == BeginDecision(cfg, old(inbox), id, now)
      ensures inbox == InboxAfterBegin(cfg, old(inbox), id, now)
      // Written out: a fresh or stale record is taken over, a completed or failed one reported, a live one left alone.
      ensures decision.StartProcessing? <==>
                id !in old(inbox) || (old(inbox)[id].status == Processing && old(inbox)[id].updatedAt <= now - cfg.staleAfter)
      ensures decision.AlreadyCompleted? <==> id in old(inbox) && old(inbox)[id].status == Completed
      ensures decision.RetryPreviousFailure? <==> id in old(inbox) && old(inbox)[id].status == Failed
      ensures inbox == if decision.StartProcessing? then old(inbox)[id := InboxRecord(Processing, now)] else old(inbox)
    {
      if id !in inbox {
        inbox := inbox[id := InboxRecord(Processing, now)];
        return StartProcessing;
      }
      match inbox[id].status {
        case Processing =>
          if inbox[id].updatedAt > now - cfg.staleAfter {
            return AlreadyProcessing;
          }
          inbox := inbox[id := inbox[id].(updatedAt := now)];
          return StartProcessing;
        case Completed => return AlreadyCompleted;
        case Failed => return RetryPreviousFailure;
      }
    }

    /** `process_idempotent_with_retry`; `handlerOk` is the handler's answer should it run. */
    method Process(d: Delivery, handlerOk: bool, now: int) returns (outcome: Outcome)
      modifies this
      ensures View() == AfterProcess(cfg, old(View()), d, handlerOk, now)
      ensures outcome.SkippedDuplicate? <==> BeginDecision(cfg, old(inbox), d.id, now).AlreadyCompleted?
      ensures outcome.StillProcessing? <==> BeginDecision(cfg, old(inbox), d.id, now).AlreadyProcessing?
      ensures outcome.Processed? <==> Handled(BeginDecision(cfg, old(inbox), d.id, now)) && handlerOk
      ensures outcome.HandlerFailed? <==> Handled(BeginDecision(cfg, old(inbox), d.id, now)) && !handlerOk
    {
      var decision := BeginProcessing(d.id, now);
      match decision {
        case AlreadyCompleted =>
          Ack(d);
          return SkippedDuplicate;
        case AlreadyProcessing =>
          Nack(d, true);
          return StillProcessing;
        case _ =>
          runs := runs[d.id := (if d.id in runs then runs[d.id] else 0) + 1];
          if handlerOk {
            inbox := inbox[d.id := InboxRecord(Completed, now)];
            Ack(d);
            return Processed;
          }
          inbox := inbox[d.id := InboxRecord(Failed, now)];
          if Decide(cfg.maxAttempts, d.attempt).RetryAfter? {
            Nack(d, true);
          } else {
            dlq := dlq + [DeadLetter(d.id, d.attempt)];
            Nack(d, false);
          }
          return HandlerFailed;
      }
    }

    /** One turn of the consumer loop: `next`, then the flow for what it returned. */
    method Turn(handler: Handler, now: int) returns (outcome: Outcome)
      requires queue != []
      modifies this
      ensures View() == AfterTurn(cfg, old(View()), handler, now)
    {
      var d := TakeNext();
      outcome := Process(d.value, handler(d.value.id, d.value.attempt), now);
    }

    /**
     * The consumer loop. It always drains the queue; afterwards every message of
     * the batch is either acknowledged and completed or dead-lettered exactly
     * once, never both, and its handler ran at most max(1, max_attempts) times.
     * Which of the two it is depends on the handler alone: acknowledged exactly
     * when the message was already completed or some attempt within the budget
     * succeeds. A message's attempts differ, so `handler` covers every behaviour.
     */
    method Drain(handler: Handler, clock: nat -> int, ids: set<MsgId>)
      requires forall id :: id in ids <==> Queued(queue, id)
      requires DistinctIds(queue) && forall i :: 0 <= i < |queue| ==> queue[i].attempt == 1
      requires forall id :: id in ids ==> !StatusIs(inbox, id, Processing)
      requires acked == {} && dlq == [] && runs == map[]
      modifies this
      ensures queue == []
      ensures forall id :: id in ids ==> Verdict(cfg, View(), id)
      ensures forall id :: id in ids ==>
                (Done(View(), id) <==> old(StatusIs(inbox, id, Completed)) || Succeeds(cfg, handler, id))
      ensures forall id :: id in ids ==>
                RanExactly(cfg, handler, (set x | x in ids && old(StatusIs(inbox, x, Completed))), View(), id)
      ensures forall i :: 0 <= i < |dlq| ==> dlq[i].attempts == Budget(cfg.maxAttempts)
    {
      var n := 0;
      ghost var done := set id | id in ids && StatusIs(inbox, id, Completed);
      assert forall i :: 0 <= i < |queue| ==> Queued(queue, queue[i].id);
      while queue != []
        invariant Inv(cfg, ids, View())
        invariant FateInv(cfg, handler, ids, done, View())
        decreases Remaining(cfg, queue)
      {
        ghost var before := View();
        TurnKeeps(cfg, handler, ids, done, before, clock(n));
        var outcome := Turn(handler, clock(n));
        n := n + 1;
      }
    }
  }
}
