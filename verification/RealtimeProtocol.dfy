/**
 * `InMemoryHub` under concurrency: subscribes (existence probe, ceiling check in
 * two reads, registration, backlog read), publishes (stamp under the lock, send
 * after it) and guard drops (decrement, then remove-if-idle) interleave freely.
 * A run is any sequence of actions; a disabled action changes nothing.
 */
module RealtimeProtocol {
  import opened Common
  import opened RoomBacklog
  import opened RealtimeHub

  datatype Stage =
    | Arrived
    | Probed(existed: bool)
    | Counting(existed: bool)
    | Admitted(existed: bool)
    | Entered(existed: bool, channel: nat, joinedAt: nat)
    | Streaming(existed: bool, channel: nat, joinedAt: nat, answer: Answer, readAt: nat)
    | Leaving(collected: bool)

  /** `received` is what the broadcast channel handed this receiver, lag aside. */
  datatype Sub = Sub(room: RoomId, since: Option<nat>, stage: Stage, received: seq<Message>)

  /** `histories[c]` is everything ever stamped on channel `c`; `flights` are stamped but not yet sent. */
  datatype Hub = Hub(rooms: Rooms, subs: map<nat, Sub>, flights: map<nat, Stamped>, histories: seq<seq<Message>>)

  datatype Action =
    | Subscribe(s: nat, room: RoomId, since: Option<nat>)
    | Probe(s: nat)
    | Look(s: nat)
    | Count(s: nat)
    | Enter(s: nat)
    | Read(s: nat)
    | Decrement(s: nat)
    | Remove(s: nat)
    | Stamp(f: nat, room: RoomId, payload: seq<bv8>)
    | Send(f: nat)

  const EMPTY := Hub(map[], map[], map[], [])

  predicate Member(sub: Sub) {
    sub.stage.Entered? || sub.stage.Streaming?
  }

  predicate On(sub: Sub, channel: nat) {
    Member(sub) && sub.stage.channel == channel
  }

  // ---------------------------------------------------------------- steps

  function Restage(h: Hub, s: nat, stage: Stage): Hub
    requires s in h.subs
  {
    h.(subs := h.subs[s := h.subs[s].(stage := stage)])
  }

  function AfterEnter(h: Hub, s: nat): Hub
    requires s in h.subs && h.subs[s].stage.Admitted?
  {
    var id := h.subs[s].room;
    var room := RoomAfterEnter(Lookup(h.rooms, id), |h.histories|);
    Restage(h.(rooms := h.rooms[id := room],
               histories := if id in h.rooms then h.histories else h.histories + [[]]),
            s, Entered(h.subs[s].stage.existed, room.channel, room.nextVersion))
  }

  function AfterRead(cfg: Config, h: Hub, s: nat): Hub
    requires s in h.subs && h.subs[s].stage.Entered?
  {
    var sub := h.subs[s];
    var room := Lookup(h.rooms, sub.room);
    Restage(h, s, Streaming(sub.stage.existed, sub.stage.channel, sub.stage.joinedAt,
                            ReadAnswer(cfg, room, sub.since, sub.stage.existed),
                            if room.Some? then room.value.nextVersion else 1))
  }

  function AfterDecrement(h: Hub, s: nat): Hub
    requires s in h.subs && h.subs[s].stage.Streaming?
  {
    var id := h.subs[s].room;
    if id in h.rooms then
      var rooms := h.rooms[id := RoomAfterDecrement(h.rooms[id])];
      Restage(h.(rooms := rooms), s, Leaving(Idle(rooms, id)))
    else
      Restage(h, s, Leaving(false))
  }

  function AfterRemove(h: Hub, s: nat): Hub
    requires s in h.subs && h.subs[s].stage.Leaving?
  {
    var id := h.subs[s].room;
    var left := h.(subs := h.subs - {s});
    if h.subs[s].stage.collected && Idle(h.rooms, id) then left.(rooms := h.rooms - {id}) else left
  }

  function AfterStamp(cfg: Config, h: Hub, f: nat, id: RoomId, payload: seq<bv8>): Hub
    requires id in h.rooms && h.rooms[id].channel < |h.histories|
  {
    var stamped := StampOf(h.rooms[id], payload);
    var c := stamped.channel;
    h.(rooms := h.rooms[id := RoomAfterStamp(cfg, h.rooms[id], payload)],
       flights := h.flights[f := stamped],
       histories := h.histories[c := h.histories[c] + [stamped.message]])
  }

  function Delivered(sub: Sub, stamped: Stamped): Sub {
    if On(sub, stamped.channel) then sub.(received := sub.received + [stamped.message]) else sub
  }

  function AfterSend(h: Hub, f: nat): Hub
    requires f in h.flights
  {
    h.(flights := h.flights - {f},
       subs := map s | s in h.subs :: Delivered(h.subs[s], h.flights[f]))
  }

  function Next(cfg: Config, h: Hub, a: Action): Hub {
    match a
    case Subscribe(s, room, since) =>
      if s in h.subs then h else h.(subs := h.subs[s := Sub(room, since, Arrived, [])])
    case Probe(s) =>
      if s in h.subs && h.subs[s].stage.Arrived? then Restage(h, s, Probed(h.subs[s].room in h.rooms)) else h
    case Look(s) =>
      if s in h.subs && h.subs[s].stage.Probed? then
        var existed := h.subs[s].stage.existed;
        Restage(h, s, if h.subs[s].room in h.rooms then Admitted(existed) else Counting(existed))
      else h
    case Count(s) =>
      if s in h.subs && h.subs[s].stage.Counting? then
        if |h.rooms| >= cfg.maxRooms then h.(subs := h.subs - {s})
        else Restage(h, s, Admitted(h.subs[s].stage.existed))
      else h
    case Enter(s) => if s in h.subs && h.subs[s].stage.Admitted? then AfterEnter(h, s) else h
    case Read(s) => if s in h.subs && h.subs[s].stage.Entered? then AfterRead(cfg, h, s) else h
    case Decrement(s) => if s in h.subs && h.subs[s].stage.Streaming? then AfterDecrement(h, s) else h
    case Remove(s) => if s in h.subs && h.subs[s].stage.Leaving? then AfterRemove(h, s) else h
    case Stamp(f, id, payload) =>
      if f !in h.flights && id in h.rooms && h.rooms[id].channel < |h.histories|
      then AfterStamp(cfg, h, f, id, payload) else h
    case Send(f) => if f in h.flights then AfterSend(h, f) else h
  }

  function RunFrom(cfg: Config, h: Hub, acts: seq<Action>): Hub {
    if acts == [] then h else Next(cfg, RunFrom(cfg, h, acts[..|acts| - 1]), acts[|acts| - 1])
  }

  // ---------------------------------------------------------------- room lifetime

  function Members(subs: map<nat, Sub>, id: RoomId): set<nat> {
    set s | s in subs && Member(subs[s]) && subs[s].room == id
  }

  /** Someone has decremented this room to zero and not yet run its second half. */
  ghost predicate BeingCollected(h: Hub, id: RoomId) {
    exists s :: s in h.subs && h.subs[s].stage == Leaving(true) && h.subs[s].room == id
  }

  ghost predicate LifeInv(h: Hub) {
    // a subscriber's room is tracked, and is still the incarnation it joined
    && (forall s :: s in h.subs && Member(h.subs[s]) ==>
          h.subs[s].room in h.rooms && h.rooms[h.subs[s].room].channel == h.subs[s].stage.channel)
    // the count is exactly the guards not yet decremented
    && (forall id :: id in h.rooms ==> h.rooms[id].subscribers == |Members(h.subs, id)|)
    && (forall id :: Idle(h.rooms, id) ==> BeingCollected(h, id))
    && (forall id :: id in h.rooms ==> h.rooms[id].channel < |h.histories|)
    && (forall id, jd :: id in h.rooms && jd in h.rooms && h.rooms[id].channel == h.rooms[jd].channel ==> id == jd)
  }

  lemma SameMembers(subs: map<nat, Sub>, subs': map<nat, Sub>)
    requires forall s, id :: s in Members(subs, id) <==> s in Members(subs', id)
    ensures forall id :: Members(subs, id) == Members(subs', id)
  {
  }

  /** Steps that neither join nor leave a room, nor touch the room map. */
  lemma WaitingKeepsLife(h: Hub, h': Hub, s: nat)
    requires LifeInv(h) && h'.rooms == h.rooms && h'.histories == h.histories
    requires forall x :: x != s ==> (x in h.subs <==> x in h'.subs) && (x in h.subs ==> h'.subs[x] == h.subs[x])
    requires s in h.subs ==> !Member(h.subs[s]) && !h.subs[s].stage.Leaving?
    requires s in h'.subs ==> !Member(h'.subs[s])
    ensures LifeInv(h')
  {
    SameMembers(h.subs, h'.subs);
    forall id | Idle(h'.rooms, id) ensures BeingCollected(h', id) {
      assert BeingCollected(h, id);
    }
  }

  lemma EnterAddsMember(h: Hub, s: nat)
    requires LifeInv(h) && s in h.subs && h.subs[s].stage.Admitted?
    ensures var h', id := AfterEnter(h, s), h.subs[s].room;
            && |Members(h'.subs, id)| == |Members(h.subs, id)| + 1
            && (id !in h.rooms ==> |Members(h.subs, id)| == 0)
            && (forall jd :: jd != id ==> Members(h'.subs, jd) == Members(h.subs, jd))
  {
    var h', id := AfterEnter(h, s), h.subs[s].room;
    assert Members(h'.subs, id) == Members(h.subs, id) + {s};
    assert id !in h.rooms ==> Members(h.subs, id) == {};
  }

  lemma EnterKeepsCollecting(h: Hub, s: nat)
    requires LifeInv(h) && s in h.subs && h.subs[s].stage.Admitted?
    ensures var h' := AfterEnter(h, s); forall id :: Idle(h'.rooms, id) ==> BeingCollected(h', id)
  {
    var h', id := AfterEnter(h, s), h.subs[s].room;
    forall jd | Idle(h'.rooms, jd) ensures BeingCollected(h', jd) {
      assert jd != id && Idle(h.rooms, jd);
      var x :| x in h.subs && h.subs[x].stage == Leaving(true) && h.subs[x].room == jd;
      assert h'.subs[x] == h.subs[x];
    }
  }

  lemma EnterKeepsLife(h: Hub, s: nat)
    requires LifeInv(h) && s in h.subs && h.subs[s].stage.Admitted?
    ensures LifeInv(AfterEnter(h, s))
  {
    EnterAddsMember(h, s);
    EnterKeepsCollecting(h, s);
  }

  lemma ReadKeepsLife(cfg: Config, h: Hub, s: nat)
    requires LifeInv(h) && s in h.subs && h.subs[s].stage.Entered?
    ensures LifeInv(AfterRead(cfg, h, s))
  {
    var h' := AfterRead(cfg, h, s);
    SameMembers(h.subs, h'.subs);
    forall id | Idle(h'.rooms, id) ensures BeingCollected(h', id) {
      var x :| x in h.subs && h.subs[x].stage == Leaving(true) && h.subs[x].room == id;
      assert h'.subs[x] == h.subs[x];
    }
  }

  lemma DecrementKeepsLife(h: Hub, s: nat)
    requires LifeInv(h) && s in h.subs && h.subs[s].stage.Streaming?
    ensures LifeInv(AfterDecrement(h, s))
  {
    var h', id := AfterDecrement(h, s), h.subs[s].room;
    assert s in Members(h.subs, id);
    assert Members(h'.subs, id) == Members(h.subs, id) - {s};
    forall jd | jd != id ensures Members(h'.subs, jd) == Members(h.subs, jd) {
    }
    forall jd | Idle(h'.rooms, jd) ensures BeingCollected(h', jd) {
      if jd == id {
        assert h'.subs[s].stage == Leaving(true);
      } else {
        assert Idle(h.rooms, jd);
        var x :| x in h.subs && h.subs[x].stage == Leaving(true) && h.subs[x].room == jd;
        assert h'.subs[x] == h.subs[x];
      }
    }
  }

  lemma RemoveKeepsLife(h: Hub, s: nat)
    requires LifeInv(h) && s in h.subs && h.subs[s].stage.Leaving?
    ensures LifeInv(AfterRemove(h, s))
  {
    var h', id := AfterRemove(h, s), h.subs[s].room;
    SameMembers(h.subs, h'.subs);
    forall x | x in h'.subs && Member(h'.subs[x]) ensures h'.subs[x].room in h'.rooms {
      assert x in Members(h.subs, h.subs[x].room);
    }
    forall jd | Idle(h'.rooms, jd) ensures BeingCollected(h', jd) {
      assert Idle(h.rooms, jd);
      var x :| x in h.subs && h.subs[x].stage == Leaving(true) && h.subs[x].room == jd;
      assert x in h'.subs && h'.subs[x] == h.subs[x];
    }
  }

  lemma StampKeepsLife(cfg: Config, h: Hub, f: nat, id: RoomId, payload: seq<bv8>)
    requires LifeInv(h) && id in h.rooms
    ensures LifeInv(AfterStamp(cfg, h, f, id, payload))
  {
    var h' := AfterStamp(cfg, h, f, id, payload);
    forall jd | Idle(h'.rooms, jd) ensures BeingCollected(h', jd) {
      assert Idle(h.rooms, jd);
      assert BeingCollected(h, jd);
    }
  }

  lemma SendKeepsLife(h: Hub, f: nat)
    requires LifeInv(h) && f in h.flights
    ensures LifeInv(AfterSend(h, f))
  {
    var h' := AfterSend(h, f);
    SameMembers(h.subs, h'.subs);
    forall id | Idle(h'.rooms, id) ensures BeingCollected(h', id) {
      var x :| x in h.subs && h.subs[x].stage == Leaving(true) && h.subs[x].room == id;
      assert h'.subs[x] == h.subs[x];
    }
  }

  predicate Waits(a: Action) {
    a.Subscribe? || a.Probe? || a.Look? || a.Count?
  }

  lemma RestageKeepsLife(h: Hub, s: nat, stage: Stage)
    requires LifeInv(h) && s in h.subs && !Member(h.subs[s]) && !h.subs[s].stage.Leaving?
    requires !stage.Entered? && !stage.Streaming?
    ensures LifeInv(Restage(h, s, stage))
  {
    WaitingKeepsLife(h, Restage(h, s, stage), s);
  }

  lemma ArrivalKeepsLife(h: Hub, s: nat, sub: Sub)
    requires LifeInv(h) && s !in h.subs && !Member(sub)
    ensures LifeInv(h.(subs := h.subs[s := sub]))
  {
    WaitingKeepsLife(h, h.(subs := h.subs[s := sub]), s);
  }

  lemma RefusalKeepsLife(h: Hub, s: nat)
    requires LifeInv(h) && s in h.subs && !Member(h.subs[s]) && !h.subs[s].stage.Leaving?
    ensures LifeInv(h.(subs := h.subs - {s}))
  {
    WaitingKeepsLife(h, h.(subs := h.subs - {s}), s);
  }

  lemma WaitingStepKeepsLife(cfg: Config, h: Hub, a: Action)
    requires LifeInv(h) && Waits(a)
    ensures LifeInv(Next(cfg, h, a))
  {
    var h' := Next(cfg, h, a);
    if h' != h {
      if a.Subscribe? {
        ArrivalKeepsLife(h, a.s, Sub(a.room, a.since, Arrived, []));
      } else if a.Count? && |h.rooms| >= cfg.maxRooms {
        RefusalKeepsLife(h, a.s);
      } else {
        RestageKeepsLife(h, a.s, h'.subs[a.s].stage);
      }
    }
  }

  lemma StepKeepsLife(cfg: Config, h: Hub, a: Action)
    requires LifeInv(h)
    ensures LifeInv(Next(cfg, h, a))
  {
    if Waits(a) {
      WaitingStepKeepsLife(cfg, h, a);
    } else if Next(cfg, h, a) != h {
      match a {
        case Enter(s) => EnterKeepsLife(h, s);
        case Read(s) => ReadKeepsLife(cfg, h, s);
        case Decrement(s) => DecrementKeepsLife(h, s);
        case Remove(s) => RemoveKeepsLife(h, s);
        case Stamp(f, id, payload) => StampKeepsLife(cfg, h, f, id, payload);
        case Send(f) => SendKeepsLife(h, f);
      }
    }
  }

  // ---------------------------------------------------------------- what is stamped, retained and delivered

  ghost predicate RingInv(cfg: Config, h: Hub) {
    && (forall c :: 0 <= c < |h.histories| ==> Numbered(h.histories[c]))
    && (forall id :: id in h.rooms ==>
          && h.rooms[id].channel < |h.histories|
          && RoomMatches(cfg, h.rooms[id], h.histories[h.rooms[id].channel]))
  }

  ghost predicate Genuine(history: seq<Message>, m: Message) {
    1 <= m.version <= |history| && history[m.version - 1] == m
  }

  ghost predicate FlightInv(h: Hub) {
    && (forall f :: f in h.flights ==>
          h.flights[f].channel < |h.histories| && Genuine(h.histories[h.flights[f].channel], h.flights[f].message))
    && (forall f, g :: f in h.flights && g in h.flights && h.flights[f] == h.flights[g] ==> f == g)
  }

  ghost predicate InFlight(flights: map<nat, Stamped>, channel: nat, m: Message) {
    exists f :: f in flights && flights[f] == Stamped(channel, m)
  }

  /** The receiver has, or is about to be handed, every version stamped since it joined - each one once. */
  ghost predicate Covered(histories: seq<seq<Message>>, flights: map<nat, Stamped>, sub: Sub)
    requires Member(sub)
  {
    var c := sub.stage.channel;
    && c < |histories|
    && 1 <= sub.stage.joinedAt <= |histories[c]| + 1
    && (forall i :: 0 <= i < |sub.received| ==> Genuine(histories[c], sub.received[i]))
    && (forall i, j :: 0 <= i < j < |sub.received| ==> sub.received[i] != sub.received[j])
    && (forall m :: m in sub.received ==> !InFlight(flights, c, m))
    && (forall k :: sub.stage.joinedAt - 1 <= k < |histories[c]| ==>
          histories[c][k] in sub.received || InFlight(flights, c, histories[c][k]))
  }

  /** The answer a subscriber was given, in terms of the history at the moment it read. */
  ghost predicate AnswerOk(cfg: Config, seen: seq<Message>, since: Option<nat>, existed: bool, answer: Answer) {
    var ring := Retained(cfg, seen);
    var dropped := |seen| - |ring|;
    && (answer.Unavailable? <==> since.None? || cfg.backlog == 0 || !existed || (ring == [] && seen != []))
    && (answer.Gap? ==> since.Some? && since.value + 1 <= dropped && answer.oldest == dropped + 1)
    && (answer.Replayed? ==>
          && since.Some? && dropped <= since.value
          && |answer.messages| == (if since.value <= |seen| then |seen| - since.value else 0)
          && forall i :: 0 <= i < |answer.messages| ==> answer.messages[i] == seen[since.value + i])
  }

  ghost predicate SubOk(cfg: Config, histories: seq<seq<Message>>, flights: map<nat, Stamped>, sub: Sub) {
    && (Member(sub) ==> Covered(histories, flights, sub))
    && (!Member(sub) && !sub.stage.Leaving? ==> sub.received == [])
    && (sub.stage.Streaming? ==>
          && sub.stage.joinedAt <= sub.stage.readAt <= |histories[sub.stage.channel]| + 1
          && AnswerOk(cfg, histories[sub.stage.channel][..sub.stage.readAt - 1], sub.since, sub.stage.existed, sub.stage.answer))
  }

  ghost predicate DeliveryInv(cfg: Config, h: Hub) {
    && RingInv(cfg, h)
    && FlightInv(h)
    && (forall s :: s in h.subs ==> SubOk(cfg, h.histories, h.flights, h.subs[s]))
  }

  // ---------------------------------------------------------------- every step keeps the handover

  lemma StampedRoomMatches(cfg: Config, room: Room, history: seq<Message>, payload: seq<bv8>)
    requires RoomMatches(cfg, room, history) && Numbered(history)
    ensures var m := StampOf(room, payload).message;
            RoomMatches(cfg, RoomAfterStamp(cfg, room, payload), history + [m]) && Numbered(history + [m])
  {
    RetentionIsIncremental(cfg, history, StampOf(room, payload).message);
  }

  lemma StampKeepsRing(cfg: Config, h: Hub, f: nat, id: RoomId, payload: seq<bv8>)
    requires LifeInv(h) && RingInv(cfg, h) && id in h.rooms
    ensures RingInv(cfg, AfterStamp(cfg, h, f, id, payload))
  {
    var h' := AfterStamp(cfg, h, f, id, payload);
    var room := h.rooms[id];
    StampedRoomMatches(cfg, room, h.histories[room.channel], payload);
    forall jd | jd in h'.rooms ensures RoomMatches(cfg, h'.rooms[jd], h'.histories[h'.rooms[jd].channel]) {
      if jd != id {
        assert h.rooms[jd].channel != room.channel;
      }
    }
  }

  lemma StampedIsGenuine(cfg: Config, h: Hub, f: nat, id: RoomId, payload: seq<bv8>, g: nat)
    requires RingInv(cfg, h) && FlightInv(h) && id in h.rooms && f !in h.flights
    requires g in AfterStamp(cfg, h, f, id, payload).flights
    ensures var h' := AfterStamp(cfg, h, f, id, payload);
            h'.flights[g].channel < |h'.histories| && Genuine(h'.histories[h'.flights[g].channel], h'.flights[g].message)
  {
    var stamped := StampOf(h.rooms[id], payload);
    assert RoomMatches(cfg, h.rooms[id], h.histories[stamped.channel]);
    if g != f {
      assert Genuine(h.histories[h.flights[g].channel], h.flights[g].message);
    }
  }

  /** A fresh stamp carries a version that nothing in flight on its channel has. */
  lemma StampKeepsFlights(cfg: Config, h: Hub, f: nat, id: RoomId, payload: seq<bv8>)
    requires RingInv(cfg, h) && FlightInv(h) && id in h.rooms && f !in h.flights
    ensures FlightInv(AfterStamp(cfg, h, f, id, payload))
  {
    var h', stamped := AfterStamp(cfg, h, f, id, payload), StampOf(h.rooms[id], payload);
    forall g | g in h'.flights
      ensures h'.flights[g].channel < |h'.histories| && Genuine(h'.histories[h'.flights[g].channel], h'.flights[g].message)
    {
      StampedIsGenuine(cfg, h, f, id, payload, g);
    }
    forall g | g in h.flights ensures h.flights[g] != stamped {
      assert Genuine(h.histories[h.flights[g].channel], h.flights[g].message);
      assert RoomMatches(cfg, h.rooms[id], h.histories[stamped.channel]);
    }
  }

  /** A newly stamped message is in flight, so it joins what each receiver of its channel is owed. */
  lemma StampKeepsSub(cfg: Config, h: Hub, f: nat, id: RoomId, payload: seq<bv8>, sub: Sub)
    requires RingInv(cfg, h) && id in h.rooms && f !in h.flights
    requires SubOk(cfg, h.histories, h.flights, sub)
    ensures var h' := AfterStamp(cfg, h, f, id, payload); SubOk(cfg, h'.histories, h'.flights, sub)
  {
    var h' := AfterStamp(cfg, h, f, id, payload);
    var stamped := StampOf(h.rooms[id], payload);
    if Member(sub) {
      var c := sub.stage.channel;
      forall m ensures InFlight(h'.flights, c, m) <==> InFlight(h.flights, c, m) || stamped == Stamped(c, m) {
        if InFlight(h.flights, c, m) {
          var g :| g in h.flights && h.flights[g] == Stamped(c, m);
          assert h'.flights[g] == Stamped(c, m);
        }
        assert h'.flights[f] == stamped;
      }
      if c == stamped.channel {
        assert !Genuine(h.histories[c], stamped.message);
        assert sub.stage.Streaming? ==>
          h'.histories[c][..sub.stage.readAt - 1] == h.histories[c][..sub.stage.readAt - 1];
      }
    }
  }

  lemma SendKeepsSub(cfg: Config, h: Hub, f: nat, sub: Sub)
    requires FlightInv(h) && f in h.flights && SubOk(cfg, h.histories, h.flights, sub)
    ensures SubOk(cfg, h.histories, h.flights - {f}, Delivered(sub, h.flights[f]))
  {
    var stamped, sub' := h.flights[f], Delivered(sub, h.flights[f]);
    if Member(sub) {
      var c := sub.stage.channel;
      assert InFlight(h.flights, stamped.channel, stamped.message);
      forall m ensures InFlight(h.flights - {f}, c, m) <==> InFlight(h.flights, c, m) && stamped != Stamped(c, m) {
        if InFlight(h.flights, c, m) && stamped != Stamped(c, m) {
          var g :| g in h.flights && h.flights[g] == Stamped(c, m);
          assert g in h.flights - {f};
        }
      }
    }
  }

  lemma EnterKeepsSub(cfg: Config, h: Hub, s: nat)
    requires LifeInv(h) && DeliveryInv(cfg, h) && s in h.subs && h.subs[s].stage.Admitted?
    ensures var h' := AfterEnter(h, s); SubOk(cfg, h'.histories, h'.flights, h'.subs[s])
  {
  }

  lemma EnterKeepsRing(cfg: Config, h: Hub, s: nat)
    requires LifeInv(h) && RingInv(cfg, h) && s in h.subs && h.subs[s].stage.Admitted?
    ensures RingInv(cfg, AfterEnter(h, s))
  {
    assert Retained(cfg, []) == [];
  }

  lemma EnterKeepsDelivery(cfg: Config, h: Hub, s: nat)
    requires LifeInv(h) && DeliveryInv(cfg, h) && s in h.subs && h.subs[s].stage.Admitted?
    ensures DeliveryInv(cfg, AfterEnter(h, s))
  {
    var h' := AfterEnter(h, s);
    EnterKeepsRing(cfg, h, s);
    EnterKeepsSub(cfg, h, s);
    forall x | x in h'.subs && x != s ensures SubOk(cfg, h'.histories, h'.flights, h'.subs[x]) {
      assert SubOk(cfg, h.histories, h.flights, h.subs[x]);
    }
  }

  lemma AnswerIsOk(cfg: Config, room: Room, history: seq<Message>, since: Option<nat>, existed: bool)
    requires RoomMatches(cfg, room, history) && Numbered(history)
    ensures AnswerOk(cfg, history, since, existed, ReadAnswer(cfg, Some(room), since, existed))
  {
    AnswerMeaning(cfg, room, history, since, existed);
  }

  lemma SameCoverage(histories: seq<seq<Message>>, flights: map<nat, Stamped>, sub: Sub, sub': Sub)
    requires Member(sub) && Member(sub') && Covered(histories, flights, sub) && sub'.received == sub.received
    requires sub'.stage.channel == sub.stage.channel && sub'.stage.joinedAt == sub.stage.joinedAt
    ensures Covered(histories, flights, sub')
  {
  }

  lemma ReaderIsAnswered(cfg: Config, h: Hub, s: nat)
    requires LifeInv(h) && DeliveryInv(cfg, h) && s in h.subs && h.subs[s].stage.Entered?
    ensures var h' := AfterRead(cfg, h, s); SubOk(cfg, h.histories, h.flights, h'.subs[s])
  {
    var sub := h.subs[s];
    assert SubOk(cfg, h.histories, h.flights, sub);
    var room := h.rooms[sub.room];
    var history := h.histories[room.channel];
    assert RoomMatches(cfg, room, history);
    assert history[..room.nextVersion - 1] == history;
    AnswerIsOk(cfg, room, history, sub.since, sub.stage.existed);
    SameCoverage(h.histories, h.flights, sub, AfterRead(cfg, h, s).subs[s]);
  }

  lemma ReadKeepsDelivery(cfg: Config, h: Hub, s: nat)
    requires LifeInv(h) && DeliveryInv(cfg, h) && s in h.subs && h.subs[s].stage.Entered?
    ensures DeliveryInv(cfg, AfterRead(cfg, h, s))
  {
    ReaderIsAnswered(cfg, h, s);
  }

  lemma StampKeepsDelivery(cfg: Config, h: Hub, f: nat, id: RoomId, payload: seq<bv8>)
    requires LifeInv(h) && DeliveryInv(cfg, h) && id in h.rooms && f !in h.flights
    ensures DeliveryInv(cfg, AfterStamp(cfg, h, f, id, payload))
  {
    StampKeepsRing(cfg, h, f, id, payload);
    StampKeepsFlights(cfg, h, f, id, payload);
    forall s | s in h.subs
      ensures var h' := AfterStamp(cfg, h, f, id, payload); SubOk(cfg, h'.histories, h'.flights, h.subs[s])
    {
      StampKeepsSub(cfg, h, f, id, payload, h.subs[s]);
    }
  }

  lemma SendKeepsDelivery(cfg: Config, h: Hub, f: nat)
    requires DeliveryInv(cfg, h) && f in h.flights
    ensures DeliveryInv(cfg, AfterSend(h, f))
  {
    forall s | s in h.subs ensures SubOk(cfg, h.histories, h.flights - {f}, Delivered(h.subs[s], h.flights[f])) {
      SendKeepsSub(cfg, h, f, h.subs[s]);
    }
  }

  /** Steps that stamp, send, join and read nothing. */
  ghost predicate Quiet(h: Hub, h': Hub) {
    && h'.histories == h.histories && h'.flights == h.flights
    && (forall id :: id in h'.rooms ==>
          id in h.rooms && h'.rooms[id] == h.rooms[id].(subscribers := h'.rooms[id].subscribers))
    && (forall s :: s in h'.subs ==>
          || (s in h.subs && h'.subs[s] == h.subs[s])
          || (!Member(h'.subs[s]) && (h'.subs[s].stage.Leaving? || h'.subs[s].received == [])))
  }

  lemma QuietKeepsDelivery(cfg: Config, h: Hub, h': Hub)
    requires DeliveryInv(cfg, h) && Quiet(h, h')
    ensures DeliveryInv(cfg, h')
  {
    forall s | s in h'.subs ensures SubOk(cfg, h'.histories, h'.flights, h'.subs[s]) {
      assert s in h.subs ==> SubOk(cfg, h.histories, h.flights, h.subs[s]);
    }
  }

  lemma RestageIsQuiet(h: Hub, s: nat, stage: Stage)
    requires s in h.subs && h.subs[s].received == [] && !stage.Entered? && !stage.Streaming?
    ensures Quiet(h, Restage(h, s, stage))
  {
  }

  lemma WaitingIsQuiet(cfg: Config, h: Hub, a: Action)
    requires Waits(a) && (a.s in h.subs && !Member(h.subs[a.s]) && !h.subs[a.s].stage.Leaving? ==> h.subs[a.s].received == [])
    ensures Quiet(h, Next(cfg, h, a))
  {
    var h' := Next(cfg, h, a);
    if h' != h && !a.Subscribe? && a.s in h'.subs {
      RestageIsQuiet(h, a.s, h'.subs[a.s].stage);
    }
  }

  lemma DropIsQuiet(cfg: Config, h: Hub, a: Action)
    requires a.Decrement? || a.Remove?
    ensures Quiet(h, Next(cfg, h, a))
  {
  }

  lemma StepKeepsDelivery(cfg: Config, h: Hub, a: Action)
    requires LifeInv(h) && DeliveryInv(cfg, h)
    ensures DeliveryInv(cfg, Next(cfg, h, a))
  {
    if Waits(a) {
      assert a.s in h.subs ==> SubOk(cfg, h.histories, h.flights, h.subs[a.s]);
      WaitingIsQuiet(cfg, h, a);
      QuietKeepsDelivery(cfg, h, Next(cfg, h, a));
    } else if a.Decrement? || a.Remove? {
      DropIsQuiet(cfg, h, a);
      QuietKeepsDelivery(cfg, h, Next(cfg, h, a));
    } else if Next(cfg, h, a) != h {
      match a {
        case Enter(s) => EnterKeepsDelivery(cfg, h, s);
        case Read(s) => ReadKeepsDelivery(cfg, h, s);
        case Stamp(f, id, payload) => StampKeepsDelivery(cfg, h, f, id, payload);
        case Send(f) => SendKeepsDelivery(cfg, h, f);
      }
    }
  }

  lemma {:induction false} RunKeepsInv(cfg: Config, acts: seq<Action>)
    ensures LifeInv(RunFrom(cfg, EMPTY, acts)) && DeliveryInv(cfg, RunFrom(cfg, EMPTY, acts))
  {
    if acts != [] {
      var init := RunFrom(cfg, EMPTY, acts[..|acts| - 1]);
      RunKeepsInv(cfg, acts[..|acts| - 1]);
      StepKeepsLife(cfg, init, acts[|acts| - 1]);
      StepKeepsDelivery(cfg, init, acts[|acts| - 1]);
    }
  }

  // ---------------------------------------------------------------- theorems over every run

  /**
   * Room lifetime: the count of every tracked room is the number of guards not
   * yet decremented, a subscriber's room is tracked under the channel it
   * joined, and that guard's own decrement finds a count of at least one there.
   */
  lemma RoomOutlivesItsSubscribers(cfg: Config, acts: seq<Action>, s: nat)
    requires var h := RunFrom(cfg, EMPTY, acts); s in h.subs && Member(h.subs[s])
    ensures var h := RunFrom(cfg, EMPTY, acts);
            var id := h.subs[s].room;
            && id in h.rooms
            && h.rooms[id].channel == h.subs[s].stage.channel
            && h.rooms[id].subscribers == |Members(h.subs, id)| >= 1
  {
    RunKeepsInv(cfg, acts);
    var h := RunFrom(cfg, EMPTY, acts);
    assert s in Members(h.subs, h.subs[s].room);
  }

  ghost predicate HasSubscriber(h: Hub, id: RoomId) {
    exists s :: s in h.subs && Member(h.subs[s]) && h.subs[s].room == id
  }

  ghost predicate NoDropHalfDone(h: Hub) {
    forall s :: s in h.subs ==> !h.subs[s].stage.Leaving?
  }

  lemma NothingBeingCollected(h: Hub, id: RoomId)
    requires NoDropHalfDone(h)
    ensures !BeingCollected(h, id)
  {
  }

  lemma TrackedRoomHasSubscriber(h: Hub, id: RoomId)
    requires LifeInv(h) && id in h.rooms && !BeingCollected(h, id)
    ensures HasSubscriber(h, id)
  {
    assert !Idle(h.rooms, id);
    assert |Members(h.subs, id)| == h.rooms[id].subscribers;
    var s :| s in Members(h.subs, id);
    assert s in h.subs && Member(h.subs[s]) && h.subs[s].room == id;
  }

  lemma SettledHub(h: Hub, id: RoomId)
    requires LifeInv(h) && NoDropHalfDone(h)
    ensures id in h.rooms <==> HasSubscriber(h, id)
  {
    if id in h.rooms {
      NothingBeingCollected(h, id);
      TrackedRoomHasSubscriber(h, id);
    }
  }

  /** When no drop is half done, the tracked rooms are exactly those with a live subscriber. */
  lemma SettledRoomsHaveSubscribers(cfg: Config, acts: seq<Action>)
    requires NoDropHalfDone(RunFrom(cfg, EMPTY, acts))
    ensures forall id :: id in RunFrom(cfg, EMPTY, acts).rooms <==> HasSubscriber(RunFrom(cfg, EMPTY, acts), id)
  {
    var h := RunFrom(cfg, EMPTY, acts);
    RunKeepsInv(cfg, acts);
    forall id ensures id in h.rooms <==> HasSubscriber(h, id) {
      SettledHub(h, id);
    }
  }

  /** The ring is a suffix of the history within both limits, and no longer suffix is; its byte count is exact. */
  ghost predicate KeptLongestSuffix(cfg: Config, room: Room, history: seq<Message>) {
    var kept := |room.ring|;
    && kept <= |history| && room.ring == history[|history| - kept..]
    && room.ringBytes == |Joined(room.ring)|
    && (cfg.backlog == 0 || cfg.maxBytes == 0 ==> kept == 0)
    && kept <= cfg.backlog && room.ringBytes <= cfg.maxBytes
    && (cfg.backlog > 0 && cfg.maxBytes > 0 ==>
          forall c :: 0 <= c < |history| - kept ==> |history| - c > cfg.backlog || |Joined(history[c..])| > cfg.maxBytes)
  }

  lemma RingKeepsLongestSuffix(cfg: Config, room: Room, history: seq<Message>)
    requires RoomMatches(cfg, room, history)
    ensures KeptLongestSuffix(cfg, room, history)
  {
    LongestFitIsLongest(cfg, history);
    BytesCountPayloads(room.ring);
  }

  /** The retained ring of every room is the longest fitting suffix of everything published to it. */
  lemma RingIsLongestFit(cfg: Config, acts: seq<Action>, id: RoomId)
    requires id in RunFrom(cfg, EMPTY, acts).rooms
    ensures var h := RunFrom(cfg, EMPTY, acts);
            var room := h.rooms[id];
            && room.channel < |h.histories|
            && var history := h.histories[room.channel];
            && (forall i :: 0 <= i < |history| ==> history[i].version == i + 1)
            && room.nextVersion == |history| + 1
            && KeptLongestSuffix(cfg, room, history)
  {
    var h := RunFrom(cfg, EMPTY, acts);
    RunKeepsInv(cfg, acts);
    RingKeepsLongestSuffix(cfg, h.rooms[id], h.histories[h.rooms[id].channel]);
  }

  /** A version after `since` is in the replay, or was stamped after the receiver joined. */
  lemma ReplayMeetsTheReceiver(cfg: Config, histories: seq<seq<Message>>, flights: map<nat, Stamped>, sub: Sub, k: nat)
    requires sub.stage.Streaming? && sub.stage.answer.Replayed? && SubOk(cfg, histories, flights, sub)
    requires sub.since.Some? && sub.since.value <= k < |histories[sub.stage.channel]|
    ensures var m := histories[sub.stage.channel][k];
            m in sub.stage.answer.messages || m in sub.received || InFlight(flights, sub.stage.channel, m)
  {
    var history, since := histories[sub.stage.channel], sub.since.value;
    if k < sub.stage.readAt - 1 {
      assert sub.stage.answer.messages == history[..sub.stage.readAt - 1][since..];
      assert sub.stage.answer.messages[k - since] == history[k];
    }
  }

  /**
   * The handover loses nothing: a subscriber that was told `Replayed` has every
   * version of its channel after `since` in the replay or in what the channel
   * handed it, except for publishes still between stamp and send.
   */
  lemma HandoverLosesNothing(cfg: Config, acts: seq<Action>, s: nat, k: nat)
    requires var h := RunFrom(cfg, EMPTY, acts);
             && s in h.subs && h.subs[s].stage.Streaming? && h.subs[s].stage.answer.Replayed?
             && h.subs[s].stage.channel < |h.histories|
             && h.subs[s].since.Some?
             && h.subs[s].since.value <= k < |h.histories[h.subs[s].stage.channel]|
    ensures var h := RunFrom(cfg, EMPTY, acts);
            var sub := h.subs[s];
            var m := h.histories[sub.stage.channel][k];
            && m.version == k + 1
            && (m in sub.stage.answer.messages || m in sub.received || InFlight(h.flights, sub.stage.channel, m))
  {
    RunKeepsInv(cfg, acts);
    var h := RunFrom(cfg, EMPTY, acts);
    ReplayMeetsTheReceiver(cfg, h.histories, h.flights, h.subs[s], k);
  }

  /** What a receiver was handed was stamped on its channel, each message once. */
  ghost predicate GenuineAndUnique(h: Hub, sub: Sub)
    requires Member(sub)
  {
    && sub.stage.channel < |h.histories|
    && (forall i :: 0 <= i < |sub.received| ==> Genuine(h.histories[sub.stage.channel], sub.received[i]))
    && (forall i, j :: 0 <= i < j < |sub.received| ==> sub.received[i] != sub.received[j])
  }

  lemma MemberIsServed(cfg: Config, h: Hub, s: nat)
    requires DeliveryInv(cfg, h) && s in h.subs && Member(h.subs[s])
    ensures GenuineAndUnique(h, h.subs[s])
  {
    assert SubOk(cfg, h.histories, h.flights, h.subs[s]);
  }

  /** Nothing is handed to a receiver twice, and nothing that was not stamped on its channel. */
  lemma DeliveryIsGenuineAndUnique(cfg: Config, acts: seq<Action>, s: nat)
    requires var h := RunFrom(cfg, EMPTY, acts); s in h.subs && Member(h.subs[s])
    ensures var h := RunFrom(cfg, EMPTY, acts); GenuineAndUnique(h, h.subs[s])
  {
    RunKeepsInv(cfg, acts);
    MemberIsServed(cfg, RunFrom(cfg, EMPTY, acts), s);
  }

  /** The answer holds of the history of the subscriber's channel at the moment it read. */
  ghost predicate ToldTheTruth(cfg: Config, h: Hub, sub: Sub)
    requires sub.stage.Streaming?
  {
    && sub.stage.channel < |h.histories|
    && 1 <= sub.stage.readAt <= |h.histories[sub.stage.channel]| + 1
    && AnswerOk(cfg, h.histories[sub.stage.channel][..sub.stage.readAt - 1], sub.since, sub.stage.existed, sub.stage.answer)
  }

  lemma StreamWasToldTheTruth(cfg: Config, h: Hub, s: nat)
    requires DeliveryInv(cfg, h) && s in h.subs && h.subs[s].stage.Streaming?
    ensures ToldTheTruth(cfg, h, h.subs[s])
  {
    assert SubOk(cfg, h.histories, h.flights, h.subs[s]);
  }

  /**
   * `Replayed` is the contiguous run of versions after `since`, `Gap` means
   * version `since + 1` was evicted, and `Unavailable` is given only to a caller
   * without a version, without a retained backlog or without a room to resume.
   */
  lemma AnswersTellTheTruth(cfg: Config, acts: seq<Action>, s: nat)
    requires var h := RunFrom(cfg, EMPTY, acts); s in h.subs && h.subs[s].stage.Streaming?
    ensures var h := RunFrom(cfg, EMPTY, acts); ToldTheTruth(cfg, h, h.subs[s])
  {
    RunKeepsInv(cfg, acts);
    StreamWasToldTheTruth(cfg, RunFrom(cfg, EMPTY, acts), s);
  }

  // ---------------------------------------------------------------- the room ceiling

  function InFlightSubs(h: Hub): set<nat> {
    set s | s in h.subs && !Member(h.subs[s]) && !h.subs[s].stage.Leaving?
  }

  function AdmittedSubs(h: Hub): set<nat> {
    set s | s in h.subs && h.subs[s].stage.Admitted?
  }

  function AdmittedRooms(h: Hub): set<RoomId> {
    set s | s in h.subs && h.subs[s].stage.Admitted? :: h.subs[s].room
  }

  /** Tracked rooms together with the rooms that admitted subscribes are about to enter. */
  function Claimed(h: Hub): set<RoomId> {
    h.rooms.Keys + AdmittedRooms(h)
  }

  /** At most `t` subscribe calls are ever in flight during the run. */
  ghost predicate AtMostInFlight(cfg: Config, acts: seq<Action>, t: nat) {
    forall n :: 0 <= n <= |acts| ==> |InFlightSubs(RunFrom(cfg, EMPTY, acts[..n]))| <= t
  }

  lemma {:induction false} ImageSize(h: Hub, subs: set<nat>)
    requires forall s :: s in subs ==> s in h.subs
    ensures |set s | s in subs :: h.subs[s].room| <= |subs|
  {
    if subs != {} {
      var x :| x in subs;
      ImageSize(h, subs - {x});
      var rest := set s | s in subs - {x} :: h.subs[s].room;
      assert (set s | s in subs :: h.subs[s].room) == rest + {h.subs[x].room};
    }
  }

  predicate PassesLengthCheck(cfg: Config, h: Hub, a: Action) {
    a.Count? && a.s in h.subs && h.subs[a.s].stage.Counting? && |h.rooms| < cfg.maxRooms
  }

  lemma LengthCheckLeavesRoom(cfg: Config, h: Hub, a: Action, t: nat)
    requires PassesLengthCheck(cfg, h, a) && |InFlightSubs(Next(cfg, h, a))| <= t
    ensures |Claimed(Next(cfg, h, a))| + 1 <= cfg.maxRooms + t
  {
    var h' := Next(cfg, h, a);
    var admitted := AdmittedSubs(h');
    SubsetSize(admitted, InFlightSubs(h'));
    ImageSize(h', admitted);
    assert AdmittedRooms(h') == set s | s in admitted :: h'.subs[s].room;
    assert |h'.rooms.Keys| == |h.rooms|;
  }

  lemma ClaimedRoomsShrink(h: Hub, h': Hub)
    requires h'.rooms.Keys <= Claimed(h)
    requires forall s :: s in h'.subs && h'.subs[s].stage.Admitted? ==> h'.subs[s].room in Claimed(h)
    ensures |Claimed(h')| <= |Claimed(h)|
  {
    SubsetSize(Claimed(h'), Claimed(h));
  }

  lemma RoomsComeFromAdmissions(cfg: Config, h: Hub, a: Action, id: RoomId)
    requires id in Next(cfg, h, a).rooms
    ensures id in h.rooms || (a.Enter? && a.s in h.subs && h.subs[a.s].stage.Admitted? && h.subs[a.s].room == id)
  {
  }

  lemma AdmissionsHadARoom(cfg: Config, h: Hub, a: Action, s: nat)
    requires !PassesLengthCheck(cfg, h, a)
    requires s in Next(cfg, h, a).subs && Next(cfg, h, a).subs[s].stage.Admitted?
    ensures s in h.subs && h.subs[s].room == Next(cfg, h, a).subs[s].room
    ensures h.subs[s].stage.Admitted? || h.subs[s].room in h.rooms
  {
  }

  /** Only passing the length check enlarges the claim: entering a room merely turns a claim into a tracked room. */
  lemma OtherStepsKeepClaims(cfg: Config, h: Hub, a: Action)
    requires !PassesLengthCheck(cfg, h, a)
    ensures |Claimed(Next(cfg, h, a))| <= |Claimed(h)|
  {
    var h' := Next(cfg, h, a);
    forall s | s in h'.subs && h'.subs[s].stage.Admitted? ensures h'.subs[s].room in Claimed(h) {
      AdmissionsHadARoom(cfg, h, a, s);
    }
    forall id | id in h'.rooms.Keys ensures id in Claimed(h) {
      RoomsComeFromAdmissions(cfg, h, a, id);
    }
    ClaimedRoomsShrink(h, h');
  }

  lemma {:induction false} CeilingIsHard(cfg: Config, acts: seq<Action>, t: nat)
    requires AtMostInFlight(cfg, acts, t)
    ensures |Claimed(RunFrom(cfg, EMPTY, acts))| <= if cfg.maxRooms == 0 then 0 else cfg.maxRooms - 1 + t
  {
    if acts != [] {
      var init := acts[..|acts| - 1];
      forall n | 0 <= n <= |init| ensures |InFlightSubs(RunFrom(cfg, EMPTY, init[..n]))| <= t {
        assert init[..n] == acts[..n];
      }
      CeilingIsHard(cfg, init, t);
      assert acts[..|acts|] == acts;
      var h, a := RunFrom(cfg, EMPTY, init), acts[|acts| - 1];
      if PassesLengthCheck(cfg, h, a) {
        LengthCheckLeavesRoom(cfg, h, a, t);
      } else {
        OtherStepsKeepClaims(cfg, h, a);
      }
    }
  }

  /** With one subscribe at a time the ceiling is exact. */
  lemma SoloSubscribesMeetTheCeiling(cfg: Config, acts: seq<Action>)
    requires AtMostInFlight(cfg, acts, 1)
    ensures |RunFrom(cfg, EMPTY, acts).rooms| <= cfg.maxRooms
  {
    CeilingIsHard(cfg, acts, 1);
    var h := RunFrom(cfg, EMPTY, acts);
    SubsetSize(h.rooms.Keys, Claimed(h));
    assert |h.rooms.Keys| == |h.rooms|;
  }

  lemma Extended(cfg: Config, acts: seq<Action>, a: Action, b: Action) returns (more: seq<Action>)
    ensures RunFrom(cfg, EMPTY, more) == Next(cfg, Next(cfg, RunFrom(cfg, EMPTY, acts), a), b)
  {
    assert (acts + [a])[..|acts|] == acts;
    more := acts + [a] + [b];
    assert more[..|acts| + 1] == acts + [a];
  }

  function Racers(id: RoomId, jd: RoomId, first: Stage, second: Stage): Hub {
    Hub(map[], map[0 := Sub(id, None, first, []), 1 := Sub(jd, None, second, [])], map[], [])
  }

  // Two subscribes that both look before either enters: the length check passes twice.

  lemma RacersArrive(cfg: Config, id: RoomId, jd: RoomId)
    ensures Next(cfg, Next(cfg, EMPTY, Subscribe(0, id, None)), Subscribe(1, jd, None)) == Racers(id, jd, Arrived, Arrived)
  {
  }

  lemma RacersProbe(cfg: Config, id: RoomId, jd: RoomId)
    ensures Next(cfg, Next(cfg, Racers(id, jd, Arrived, Arrived), Probe(0)), Probe(1)) == Racers(id, jd, Probed(false), Probed(false))
  {
  }

  lemma RacersLook(cfg: Config, id: RoomId, jd: RoomId)
    ensures Next(cfg, Next(cfg, Racers(id, jd, Probed(false), Probed(false)), Look(0)), Look(1))
         == Racers(id, jd, Counting(false), Counting(false))
  {
  }

  lemma RacersCount(cfg: Config, id: RoomId, jd: RoomId)
    requires cfg.maxRooms == 1
    ensures Next(cfg, Next(cfg, Racers(id, jd, Counting(false), Counting(false)), Count(0)), Count(1))
         == Racers(id, jd, Admitted(false), Admitted(false))
  {
    var counting := Racers(id, jd, Counting(false), Counting(false));
    var half := Racers(id, jd, Admitted(false), Counting(false));
    assert Next(cfg, counting, Count(0)) == half by {
      assert |counting.rooms| == 0;
      assert Restage(counting, 0, Admitted(false)).subs == half.subs;
    }
    assert |half.rooms| == 0;
    assert Restage(half, 1, Admitted(false)).subs == Racers(id, jd, Admitted(false), Admitted(false)).subs;
  }

  lemma RacersEnter(cfg: Config, id: RoomId, jd: RoomId)
    requires id != jd
    ensures Next(cfg, Next(cfg, Racers(id, jd, Admitted(false), Admitted(false)), Enter(0)), Enter(1)).rooms.Keys == {id, jd}
  {
  }

  /** The ceiling is soft, as documented: two racing subscribes exceed a ceiling of one, and meet the bound for two. */
  lemma CeilingCanBeOvershot(cfg: Config, id: RoomId, jd: RoomId) returns (acts: seq<Action>)
    requires id != jd && cfg.maxRooms == 1
    ensures RunFrom(cfg, EMPTY, acts).rooms.Keys == {id, jd}
  {
    acts := Extended(cfg, [], Subscribe(0, id, None), Subscribe(1, jd, None));
    RacersArrive(cfg, id, jd);
    acts := Extended(cfg, acts, Probe(0), Probe(1));
    RacersProbe(cfg, id, jd);
    acts := Extended(cfg, acts, Look(0), Look(1));
    RacersLook(cfg, id, jd);
    acts := Extended(cfg, acts, Count(0), Count(1));
    RacersCount(cfg, id, jd);
    acts := Extended(cfg, acts, Enter(0), Enter(1));
    RacersEnter(cfg, id, jd);
  }
}
