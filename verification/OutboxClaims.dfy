/**
 * Any number of `pending` calls interleaved entry by entry with every other
 * outbox operation. A call first fixes its `now` and its candidates (the read
 * pass may race with anything, so the candidates are arbitrary) and then
 * re-checks and leases them one entry lock at a time.
 */
module OutboxClaims {
  import opened Common
  import opened OutboxStore

  datatype Call = Call(now: int, todo: seq<MsgId>, claimed: seq<OutboxMessage>)

  /** `was` is the row as the claim found it. */
  datatype Event =
    | Claim(id: MsgId, now: int, was: OutboxMessage)
    | Retry(id: MsgId)

  datatype World = World(store: Store, calls: map<nat, Call>, log: seq<Event>)

  datatype Action =
    | Insert(message: OutboxMessage)
    | Begin(c: nat, now: int, candidates: seq<MsgId>)
    | ClaimNext(c: nat)
    | Finish(c: nat)
    | ScheduleRetry(id: MsgId, at: int)
    | RecordAttempt(id: MsgId)
    | MarkPublished(id: MsgId)
    | MarkFailed(id: MsgId, reason: Reason)
    | MarkDeadLettered(id: MsgId)

  const EMPTY := World(map[], map[], [])

  function Update(w: World, id: MsgId, m: OutboxMessage): World {
    w.(store := w.store[id := m])
  }

  function AfterClaimNext(lease: int, w: World, c: nat): World
    requires c in w.calls && w.calls[c].todo != []
  {
    var call := w.calls[c];
    var id := call.todo[0];
    if id in w.store && Due(w.store[id], call.now) then
      var m := Leased(w.store[id], call.now + lease);
      World(w.store[id := m],
            w.calls[c := Call(call.now, call.todo[1..], call.claimed + [m])],
            w.log + [Claim(id, call.now, w.store[id])])
    else
      w.(calls := w.calls[c := call.(todo := call.todo[1..])])
  }

  function Next(lease: int, w: World, a: Action): World {
    match a
    case Insert(m) => if m.id in w.store then w else Update(w, m.id, m)
    case Begin(c, now, candidates) => if c in w.calls then w else w.(calls := w.calls[c := Call(now, candidates, [])])
    case ClaimNext(c) => if c in w.calls && w.calls[c].todo != [] then AfterClaimNext(lease, w, c) else w
    case Finish(c) => w.(calls := w.calls - {c})
    case ScheduleRetry(id, at) =>
      if id in w.store then Update(w, id, Leased(w.store[id], at)).(log := w.log + [Retry(id)]) else w
    case RecordAttempt(id) => if id in w.store then Update(w, id, Attempted(w.store[id])) else w
    case MarkPublished(id) => if id in w.store then Update(w, id, MarkedPublished(w.store[id])) else w
    case MarkFailed(id, reason) => if id in w.store then Update(w, id, MarkedFailed(w.store[id], reason)) else w
    case MarkDeadLettered(id) => if id in w.store then Update(w, id, w.store[id].(status := DeadLettered)) else w
  }

  function RunFrom(lease: int, w: World, acts: seq<Action>): World {
    if acts == [] then w else Next(lease, RunFrom(lease, w, acts[..|acts| - 1]), acts[|acts| - 1])
  }

  /** Until when the latest claim holds a message, unless a retry was scheduled since. */
  function HeldUntil(lease: int, log: seq<Event>, id: MsgId): Option<int> {
    if log == [] then None
    else
      var n := |log| - 1;
      if log[n].id != id then HeldUntil(lease, log[..n], id)
      else if log[n].Claim? then Some(log[n].now + lease)
      else None
  }

  /** A claim finds its message pending and due, after any earlier hold has run out. */
  ghost predicate Allowed(held: Option<int>, e: Event) {
    e.Claim? ==> Due(e.was, e.now) && (held.Some? ==> held.value <= e.now)
  }

  ghost predicate Excludes(lease: int, log: seq<Event>) {
    forall j :: 0 <= j < |log| ==> Allowed(HeldUntil(lease, log[..j], log[j].id), log[j])
  }

  ghost predicate Inv(lease: int, w: World) {
    && Excludes(lease, w.log)
    && forall id :: HeldUntil(lease, w.log, id).Some? ==>
         id in w.store && w.store[id].nextAttemptAt == HeldUntil(lease, w.log, id).value
  }

  lemma AppendEvent(lease: int, log: seq<Event>, e: Event)
    requires Excludes(lease, log) && Allowed(HeldUntil(lease, log, e.id), e)
    ensures Excludes(lease, log + [e])
    ensures forall id :: HeldUntil(lease, log + [e], id) ==
              if id != e.id then HeldUntil(lease, log, id) else if e.Claim? then Some(e.now + lease) else None
  {
    var log' := log + [e];
    assert log'[..|log|] == log;
    forall j | 0 <= j < |log'| ensures Allowed(HeldUntil(lease, log'[..j], log'[j].id), log'[j]) {
      if j < |log| {
        assert log'[..j] == log[..j];
      }
    }
  }

  lemma ClaimKeepsInv(lease: int, w: World, c: nat)
    requires Inv(lease, w) && c in w.calls && w.calls[c].todo != []
    ensures Inv(lease, AfterClaimNext(lease, w, c))
  {
    var now, id := w.calls[c].now, w.calls[c].todo[0];
    if id in w.store && Due(w.store[id], now) {
      AppendEvent(lease, w.log, Claim(id, now, w.store[id]));
    }
  }

  lemma RetryKeepsInv(lease: int, w: World, id: MsgId, at: int)
    requires Inv(lease, w) && id in w.store
    ensures Inv(lease, Next(lease, w, ScheduleRetry(id, at)))
  {
    var w' := Next(lease, w, ScheduleRetry(id, at));
    AppendEvent(lease, w.log, Retry(id));
    forall jd | HeldUntil(lease, w'.log, jd).Some?
      ensures jd in w'.store && w'.store[jd].nextAttemptAt == HeldUntil(lease, w'.log, jd).value
    {
      assert jd != id && HeldUntil(lease, w'.log, jd) == HeldUntil(lease, w.log, jd);
    }
  }

  lemma StepKeepsInv(lease: int, w: World, a: Action)
    requires Inv(lease, w)
    ensures Inv(lease, Next(lease, w, a))
  {
    match a {
      case ClaimNext(c) =>
        if c in w.calls && w.calls[c].todo != [] {
          ClaimKeepsInv(lease, w, c);
        }
      case ScheduleRetry(id, at) =>
        if id in w.store {
          RetryKeepsInv(lease, w, id, at);
        }
      case _ =>
    }
  }

  lemma {:induction false} RunKeepsInv(lease: int, acts: seq<Action>)
    ensures Inv(lease, RunFrom(lease, EMPTY, acts))
  {
    if acts != [] {
      RunKeepsInv(lease, acts[..|acts| - 1]);
      StepKeepsInv(lease, RunFrom(lease, EMPTY, acts[..|acts| - 1]), acts[|acts| - 1]);
    }
  }

  /** Without a retry in between, the hold of an earlier claim only ever moves later. */
  lemma {:induction false} HoldOnlyMovesLater(lease: int, log: seq<Event>, i: nat, n: nat)
    requires lease >= 0 && Excludes(lease, log) && i < n <= |log| && log[i].Claim?
    requires forall k :: i < k < n && log[k].id == log[i].id ==> !log[k].Retry?
    ensures HeldUntil(lease, log[..n], log[i].id).Some?
    ensures HeldUntil(lease, log[..n], log[i].id).value >= log[i].now + lease
  {
    assert log[..n][..n - 1] == log[..n - 1];
    if i < n - 1 {
      HoldOnlyMovesLater(lease, log, i, n - 1);
    }
  }

  /**
   * Claim exclusion: every claim found its message pending and due, and two
   * claims of one message with no retry scheduled between them are at least a
   * lease apart in their `now` values.
   */
  lemma ClaimsExclude(lease: int, acts: seq<Action>, i: nat, j: nat)
    requires lease >= 0
    requires var log := RunFrom(lease, EMPTY, acts).log;
             && i < j < |log| && log[i].Claim? && log[j].Claim? && log[i].id == log[j].id
             && (forall k :: i < k < j && log[k].id == log[i].id ==> !log[k].Retry?)
    ensures var log := RunFrom(lease, EMPTY, acts).log;
            && Due(log[i].was, log[i].now) && Due(log[j].was, log[j].now)
            && log[i].now + lease <= log[j].now
  {
    RunKeepsInv(lease, acts);
    var log := RunFrom(lease, EMPTY, acts).log;
    HoldOnlyMovesLater(lease, log, i, j);
    assert Allowed(HeldUntil(lease, log[..i], log[i].id), log[i]);
    assert Allowed(HeldUntil(lease, log[..j], log[j].id), log[j]);
  }

  // ---------------------------------------------------------------- what a claim does and does not do

  lemma StepKeepsMessages(lease: int, w: World, a: Action)
    ensures MessagesKept(w.store, Next(lease, w, a).store)
  {
  }

  /** A new message is stored as it is. */
  lemma InsertTakesEffect(lease: int, w: World, m: OutboxMessage)
    requires m.id !in w.store
    ensures Next(lease, w, Insert(m)) == w.(store := w.store[m.id := m])
  {
  }

  /** No operation, claims included, touches a message's id, key, body or creation time. */
  lemma {:induction false} MessagesAreKept(lease: int, w: World, acts: seq<Action>)
    ensures MessagesKept(w.store, RunFrom(lease, w, acts).store)
  {
    if acts != [] {
      var init := acts[..|acts| - 1];
      MessagesAreKept(lease, w, init);
      StepKeepsMessages(lease, RunFrom(lease, w, init), acts[|acts| - 1]);
    }
  }

  lemma OneMore(lease: int, w: World, acts: seq<Action>, a: Action)
    ensures RunFrom(lease, w, acts + [a]) == Next(lease, RunFrom(lease, w, acts), a)
  {
    assert (acts + [a])[..|acts|] == acts;
  }

  /** The candidates among `ids` that are pending and due. */
  function Claimable(store: Store, ids: seq<MsgId>, now: int): seq<MsgId> {
    if ids == [] then []
    else
      var n := |ids| - 1;
      var m := ids[n];
      Claimable(store, ids[..n], now)
      + (if m in store && store[m].status == Pending && store[m].nextAttemptAt <= now then [m] else [])
  }

  /** A claim pass has gone through the candidates `done` of a store that was `store`. */
  ghost predicate Passed(lease: int, store: Store, w: World, c: nat, now: int, done: seq<MsgId>, todo: seq<MsgId>) {
    var ids := Claimable(store, done, now);
    && (forall id :: id in ids ==> id in store)
    && c in w.calls && w.calls[c].now == now && w.calls[c].todo == todo
    && |w.calls[c].claimed| == |ids|
    && (forall k :: 0 <= k < |ids| ==> w.calls[c].claimed[k] == store[ids[k]].(nextAttemptAt := now + lease))
    && w.store.Keys == store.Keys
    && (forall id :: id in store ==> w.store[id] == if id in ids then store[id].(nextAttemptAt := now + lease) else store[id])
  }

  lemma {:induction false} ClaimableAreAmong(store: Store, ids: seq<MsgId>, now: int, id: MsgId)
    ensures id in Claimable(store, ids, now) <==>
              id in ids && id in store && store[id].status == Pending && store[id].nextAttemptAt <= now
  {
    if ids != [] {
      var n := |ids| - 1;
      ClaimableAreAmong(store, ids[..n], now, id);
      assert ids == ids[..n] + [ids[n]];
    }
  }

  lemma OneMorePassed(lease: int, store: Store, w: World, c: nat, now: int, done: seq<MsgId>, todo: seq<MsgId>)
    requires Passed(lease, store, w, c, now, done, todo) && todo != [] && todo[0] !in done
    ensures Passed(lease, store, Next(lease, w, ClaimNext(c)), c, now, done + [todo[0]], todo[1..])
  {
    var id := todo[0];
    var ids := Claimable(store, done, now);
    assert (done + [id])[..|done|] == done;
    ClaimableAreAmong(store, done, now, id);
    assert id !in ids && (id in store ==> w.store[id] == store[id]);
    if id in store && Due(store[id], now) {
      assert Claimable(store, done + [id], now) == ids + [id];
      forall jd ensures jd in ids + [id] <==> jd in ids || jd == id {
      }
    } else {
      assert Claimable(store, done + [id], now) == ids + [];
    }
  }

  /** The claim pass over distinct candidates, with nobody in between. */
  lemma {:induction false} ClaimPass(lease: int, store: Store, w: World, c: nat, now: int, done: seq<MsgId>, todo: seq<MsgId>) returns (acts: seq<Action>)
    requires Passed(lease, store, w, c, now, done, todo)
    requires forall i, j :: 0 <= i < j < |done + todo| ==> (done + todo)[i] != (done + todo)[j]
    ensures Passed(lease, store, RunFrom(lease, w, acts), c, now, done + todo, [])
    decreases |todo|
  {
    if todo == [] {
      acts := [];
      assert done + todo == done;
    } else {
      assert (done + todo)[|done|] == todo[0];
      forall i | 0 <= i < |done| ensures done[i] != todo[0] {
        assert (done + todo)[i] == done[i];
      }
      OneMorePassed(lease, store, w, c, now, done, todo);
      assert done + todo == (done + [todo[0]]) + todo[1..];
      var rest := ClaimPass(lease, store, Next(lease, w, ClaimNext(c)), c, now, done + [todo[0]], todo[1..]);
      StepFirst(lease, w, ClaimNext(c), rest);
      acts := [ClaimNext(c)] + rest;
    }
  }

  lemma {:induction false} StepFirst(lease: int, w: World, a: Action, acts: seq<Action>)
    ensures RunFrom(lease, w, [a] + acts) == RunFrom(lease, Next(lease, w, a), acts)
  {
    if acts == [] {
      assert [a] + acts == [a] && [a][..0] == [];
    } else {
      var init, last := acts[..|acts| - 1], acts[|acts| - 1];
      assert [a] + acts == ([a] + init) + [last] && acts == init + [last];
      StepFirst(lease, w, a, init);
      OneMore(lease, w, [a] + init, last);
      OneMore(lease, Next(lease, w, a), init, last);
    }
  }

  /**
   * A `pending` call that nobody interrupts, over any distinct candidates: it
   * claims exactly those that are pending and due, moves only their
   * `next_attempt_at`, to a lease from now, and returns them so, in order.
   */
  lemma PendingTakesEffect(lease: int, w: World, c: nat, now: int, candidates: seq<MsgId>) returns (acts: seq<Action>)
    requires c !in w.calls && forall i, j :: 0 <= i < j < |candidates| ==> candidates[i] != candidates[j]
    ensures Passed(lease, w.store, RunFrom(lease, w, acts), c, now, candidates, [])
  {
    var begun := Next(lease, w, Begin(c, now, candidates));
    assert [] + candidates == candidates;
    var rest := ClaimPass(lease, w.store, begun, c, now, [], candidates);
    StepFirst(lease, w, Begin(c, now, candidates), rest);
    acts := [Begin(c, now, candidates)] + rest;
  }
}
