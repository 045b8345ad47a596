/**
 * What the operations of the hub achieve from any reachable state: a publish, a
 * subscribe and a drop that nobody interrupts, written out; and that publishes
 * and drops under way can always be finished.
 */
module RealtimeEffects {
  import opened Common
  import opened RoomBacklog
  import opened RealtimeHub
  import opened RealtimeProtocol

  lemma OneStep(cfg: Config, h: Hub, a: Action)
    ensures RunFrom(cfg, h, [a]) == Next(cfg, h, a)
  {
    assert [a][..0] == [];
  }

  lemma OneMore(cfg: Config, h: Hub, acts: seq<Action>, a: Action)
    ensures RunFrom(cfg, h, acts + [a]) == Next(cfg, RunFrom(cfg, h, acts), a)
  {
    assert (acts + [a])[..|acts|] == acts;
  }

  lemma {:induction false} RunsCompose(cfg: Config, h: Hub, acts: seq<Action>, more: seq<Action>)
    ensures RunFrom(cfg, h, acts + more) == RunFrom(cfg, RunFrom(cfg, h, acts), more)
  {
    if more == [] {
      assert acts + more == acts;
    } else {
      var init, a := more[..|more| - 1], more[|more| - 1];
      assert more == init + [a] && acts + more == (acts + init) + [a];
      RunsCompose(cfg, h, acts, init);
      OneMore(cfg, h, acts + init, a);
      OneMore(cfg, RunFrom(cfg, h, acts), init, a);
    }
  }

  // ---------------------------------------------------------------- publish

  /** Everyone on channel `c` was handed `m`; nobody else noticed anything. */
  ghost predicate HandedTo(subs: map<nat, Sub>, subs': map<nat, Sub>, c: nat, m: Message) {
    && subs'.Keys == subs.Keys
    && forall s :: s in subs ==>
         subs'[s] == if Member(subs[s]) && subs[s].stage.channel == c then subs[s].(received := subs[s].received + [m]) else subs[s]
  }

  /** A publish that nobody interrupts: the payload gets the next version, is recorded, and reaches every subscriber. */
  ghost predicate Published(h: Hub, id: RoomId, payload: seq<bv8>, h': Hub) {
    if id !in h.rooms then h' == h
    else
      var c := h.rooms[id].channel;
      && c < |h.histories|
      && var m := Message(payload, |h.histories[c]| + 1);
      && h'.histories == h.histories[c := h.histories[c] + [m]]
      && HandedTo(h.subs, h'.subs, c, m)
      && h'.flights == h.flights
      && h'.rooms.Keys == h.rooms.Keys && (forall jd :: jd in h.rooms && jd != id ==> h'.rooms[jd] == h.rooms[jd])
      && h'.rooms[id].subscribers == h.rooms[id].subscribers && h'.rooms[id].channel == c
  }

  lemma StampAlone(cfg: Config, h: Hub, f: nat, id: RoomId, payload: seq<bv8>)
    requires LifeInv(h) && RingInv(cfg, h) && f !in h.flights && id in h.rooms
    ensures var c, h' := h.rooms[id].channel, Next(cfg, h, Stamp(f, id, payload));
            && c < |h.histories|
            && var m := Message(payload, |h.histories[c]| + 1);
            && h'.histories == h.histories[c := h.histories[c] + [m]]
            && h'.subs == h.subs && h'.flights == h.flights[f := Stamped(c, m)]
            && h'.rooms == h.rooms[id := h'.rooms[id]]
            && h'.rooms[id].subscribers == h.rooms[id].subscribers && h'.rooms[id].channel == c
  {
    assert RoomMatches(cfg, h.rooms[id], h.histories[h.rooms[id].channel]);
  }

  lemma SendAlone(cfg: Config, h: Hub, f: nat)
    requires f in h.flights
    ensures var h' := Next(cfg, h, Send(f));
            && h'.rooms == h.rooms && h'.histories == h.histories && h'.flights == h.flights - {f}
            && HandedTo(h.subs, h'.subs, h.flights[f].channel, h.flights[f].message)
  {
  }

  lemma PublishFrom(cfg: Config, h: Hub, f: nat, id: RoomId, payload: seq<bv8>)
    requires LifeInv(h) && RingInv(cfg, h) && f !in h.flights
    ensures Published(h, id, payload, Next(cfg, Next(cfg, h, Stamp(f, id, payload)), Send(f)))
  {
    var stamped := Next(cfg, h, Stamp(f, id, payload));
    if id in h.rooms {
      StampAlone(cfg, h, f, id, payload);
      SendAlone(cfg, stamped, f);
      assert stamped.flights - {f} == h.flights;
    }
  }

  lemma PublishTakesEffect(cfg: Config, acts: seq<Action>, f: nat, id: RoomId, payload: seq<bv8>)
    requires f !in RunFrom(cfg, EMPTY, acts).flights
    ensures Published(RunFrom(cfg, EMPTY, acts), id, payload, RunFrom(cfg, EMPTY, acts + [Stamp(f, id, payload)] + [Send(f)]))
  {
    RunKeepsInv(cfg, acts);
    OneMore(cfg, EMPTY, acts, Stamp(f, id, payload));
    OneMore(cfg, EMPTY, acts + [Stamp(f, id, payload)], Send(f));
    PublishFrom(cfg, RunFrom(cfg, EMPTY, acts), f, id, payload);
  }

  // ---------------------------------------------------------------- subscribe

  predicate Refused(cfg: Config, h: Hub, id: RoomId) {
    id !in h.rooms && |h.rooms| >= cfg.maxRooms
  }

  /** Admitted to the room, about to enter. */
  lemma AdmissionAlone(cfg: Config, h: Hub, s: nat, id: RoomId, since: Option<nat>)
    requires s !in h.subs
    ensures var acts := [Subscribe(s, id, since)] + [Probe(s)] + [Look(s)] + [Count(s)];
            RunFrom(cfg, h, acts)
            == if Refused(cfg, h, id) then h else h.(subs := h.subs[s := Sub(id, since, Admitted(id in h.rooms), [])])
  {
    OneStep(cfg, h, Subscribe(s, id, since));
    OneMore(cfg, h, [Subscribe(s, id, since)], Probe(s));
    OneMore(cfg, h, [Subscribe(s, id, since)] + [Probe(s)], Look(s));
    OneMore(cfg, h, [Subscribe(s, id, since)] + [Probe(s)] + [Look(s)], Count(s));
    ProbeAlone(cfg, h, s, id, since);
    CountAlone(cfg, h, s, id, since);
  }

  function With(h: Hub, s: nat, sub: Sub): Hub {
    h.(subs := h.subs[s := sub])
  }

  lemma ProbeAlone(cfg: Config, h: Hub, s: nat, id: RoomId, since: Option<nat>)
    requires s !in h.subs
    ensures Next(cfg, Next(cfg, h, Subscribe(s, id, since)), Probe(s)) == With(h, s, Sub(id, since, Probed(id in h.rooms), []))
  {
    var arrived, probed := Sub(id, since, Arrived, []), Sub(id, since, Probed(id in h.rooms), []);
    assert h.subs[s := arrived][s := probed] == h.subs[s := probed];
  }

  lemma CountAlone(cfg: Config, h: Hub, s: nat, id: RoomId, since: Option<nat>)
    requires s !in h.subs
    ensures Next(cfg, Next(cfg, With(h, s, Sub(id, since, Probed(id in h.rooms), [])), Look(s)), Count(s))
         == if Refused(cfg, h, id) then h else With(h, s, Sub(id, since, Admitted(id in h.rooms), []))
  {
    var existed := id in h.rooms;
    var probed, counting, admitted := Sub(id, since, Probed(existed), []), Sub(id, since, Counting(existed), []), Sub(id, since, Admitted(existed), []);
    assert h.subs[s := probed][s := counting] == h.subs[s := counting];
    assert h.subs[s := counting][s := admitted] == h.subs[s := admitted];
    assert h.subs[s := probed][s := admitted] == h.subs[s := admitted];
    assert h.subs[s := counting] - {s} == h.subs;
  }

  /** A subscriber that nobody interrupted: on the room's channel, or on a fresh one in a new room, from its next version on. */
  ghost predicate Subscribed(cfg: Config, h: Hub, s: nat, id: RoomId, since: Option<nat>, h': Hub) {
    && id in h'.rooms && s in h'.subs
    && h'.subs == h.subs[s := h'.subs[s]] && h'.flights == h.flights
    && h'.rooms == h.rooms[id := h'.rooms[id]]
    && h'.subs[s].room == id && h'.subs[s].since == since && h'.subs[s].received == []
    && h'.subs[s].stage.Streaming? && h'.subs[s].stage.existed == (id in h.rooms)
    && h'.subs[s].stage.channel == h'.rooms[id].channel
    && h'.subs[s].stage.joinedAt == h'.subs[s].stage.readAt == h'.rooms[id].nextVersion
    && (id in h.rooms ==> h'.rooms[id] == h.rooms[id].(subscribers := h.rooms[id].subscribers + 1) && h'.histories == h.histories)
    && (id !in h.rooms ==> h'.rooms[id] == Room(|h.histories|, 1, 1, [], 0) && h'.histories == h.histories + [[]])
  }

  lemma EnterAlone(cfg: Config, h: Hub, s: nat, id: RoomId, since: Option<nat>)
    requires s !in h.subs
    ensures Subscribed(cfg, h, s, id, since, Next(cfg, Next(cfg, With(h, s, Sub(id, since, Admitted(id in h.rooms), [])), Enter(s)), Read(s)))
  {
    var admitted := With(h, s, Sub(id, since, Admitted(id in h.rooms), []));
    var entered := Next(cfg, admitted, Enter(s));
    var h' := Next(cfg, entered, Read(s));
    assert h'.subs == h.subs[s := h'.subs[s]];
  }

  function SubscribeSteps(s: nat, id: RoomId, since: Option<nat>): seq<Action> {
    [Subscribe(s, id, since)] + [Probe(s)] + [Look(s)] + [Count(s)] + [Enter(s)] + [Read(s)]
  }

  lemma SubscribeFrom(cfg: Config, h: Hub, s: nat, id: RoomId, since: Option<nat>)
    requires s !in h.subs
    ensures var h' := RunFrom(cfg, h, SubscribeSteps(s, id, since));
            if id !in h.rooms && |h.rooms| >= cfg.maxRooms then h' == h else Subscribed(cfg, h, s, id, since, h')
  {
    var first := [Subscribe(s, id, since)] + [Probe(s)] + [Look(s)] + [Count(s)];
    AdmissionAlone(cfg, h, s, id, since);
    OneMore(cfg, h, first, Enter(s));
    OneMore(cfg, h, first + [Enter(s)], Read(s));
    if Refused(cfg, h, id) {
      assert Next(cfg, h, Enter(s)) == h;
      assert Next(cfg, h, Read(s)) == h;
    } else {
      EnterAlone(cfg, h, s, id, since);
    }
  }

  /**
   * A subscribe that nobody interrupts is refused, without a trace, exactly when
   * the room is new and the hub full; otherwise it joins or creates the room.
   * What it is answered then is `AnswersTellTheTruth`.
   */
  lemma SubscribeTakesEffect(cfg: Config, acts: seq<Action>, s: nat, id: RoomId, since: Option<nat>)
    requires s !in RunFrom(cfg, EMPTY, acts).subs
    ensures var h, h' := RunFrom(cfg, EMPTY, acts), RunFrom(cfg, EMPTY, acts + SubscribeSteps(s, id, since));
            if id !in h.rooms && |h.rooms| >= cfg.maxRooms then h' == h else Subscribed(cfg, h, s, id, since, h')
  {
    RunsCompose(cfg, EMPTY, acts, SubscribeSteps(s, id, since));
    SubscribeFrom(cfg, RunFrom(cfg, EMPTY, acts), s, id, since);
  }

  // ---------------------------------------------------------------- drop

  /** One subscriber less; the room goes with the last one. */
  ghost predicate Dropped(h: Hub, s: nat, h': Hub)
    requires s in h.subs
  {
    var id := h.subs[s].room;
    && id in h.rooms && h.rooms[id].subscribers >= 1
    && h'.subs == h.subs - {s} && h'.flights == h.flights && h'.histories == h.histories
    && h'.rooms == if h.rooms[id].subscribers == 1 then h.rooms - {id}
                   else h.rooms[id := h.rooms[id].(subscribers := h.rooms[id].subscribers - 1)]
  }

  lemma DropFrom(cfg: Config, h: Hub, s: nat)
    requires LifeInv(h) && s in h.subs && h.subs[s].stage.Streaming?
    ensures Dropped(h, s, Next(cfg, Next(cfg, h, Decrement(s)), Remove(s)))
  {
    var id, decremented := h.subs[s].room, Next(cfg, h, Decrement(s));
    assert s in Members(h.subs, id) && h.rooms[id].subscribers == |Members(h.subs, id)|;
    assert decremented.subs - {s} == h.subs - {s};
    assert decremented.rooms - {id} == h.rooms - {id};
  }

  lemma DropTakesEffect(cfg: Config, acts: seq<Action>, s: nat)
    requires var h := RunFrom(cfg, EMPTY, acts); s in h.subs && h.subs[s].stage.Streaming?
    ensures Dropped(RunFrom(cfg, EMPTY, acts), s, RunFrom(cfg, EMPTY, acts + [Decrement(s)] + [Remove(s)]))
  {
    RunKeepsInv(cfg, acts);
    OneMore(cfg, EMPTY, acts, Decrement(s));
    OneMore(cfg, EMPTY, acts + [Decrement(s)], Remove(s));
    DropFrom(cfg, RunFrom(cfg, EMPTY, acts), s);
  }

  // ---------------------------------------------------------------- what is under way can be finished

  /** Sending what is in flight changes nothing but what receivers hold. */
  ghost predicate SameRooms(h: Hub, h': Hub) {
    && h'.rooms == h.rooms && h'.histories == h.histories && h'.subs.Keys == h.subs.Keys
    && forall s :: s in h.subs ==> h'.subs[s] == h.subs[s].(received := h'.subs[s].received)
  }

  lemma {:induction false} SendAll(cfg: Config, h: Hub) returns (acts: seq<Action>)
    ensures RunFrom(cfg, h, acts).flights == map[] && SameRooms(h, RunFrom(cfg, h, acts))
    decreases |h.flights.Keys|
  {
    if h.flights == map[] {
      acts := [];
    } else {
      var f :| f in h.flights;
      var h1 := Next(cfg, h, Send(f));
      assert h1.flights.Keys == h.flights.Keys - {f};
      acts := SendAll(cfg, h1);
      OneStep(cfg, h, Send(f));
      RunsCompose(cfg, h, [Send(f)], acts);
      acts := [Send(f)] + acts;
    }
  }

  /**
   * The handover completes: from any state, once the publishes in flight are
   * sent, a subscriber that was told `Replayed` has every version after `since`
   * in the replay or in what it received.
   */
  lemma HandoverCompletes(cfg: Config, acts: seq<Action>, s: nat) returns (more: seq<Action>)
    requires var h := RunFrom(cfg, EMPTY, acts);
             s in h.subs && h.subs[s].stage.Streaming? && h.subs[s].stage.answer.Replayed? && h.subs[s].since.Some?
    ensures var h, h' := RunFrom(cfg, EMPTY, acts), RunFrom(cfg, EMPTY, acts + more);
            && SameRooms(h, h') && h'.flights == map[]
            && h.subs[s].stage.channel < |h.histories|
            && var history := h.histories[h.subs[s].stage.channel];
            forall k :: h.subs[s].since.value <= k < |history| ==>
              history[k] in h.subs[s].stage.answer.messages || history[k] in h'.subs[s].received
  {
    var h := RunFrom(cfg, EMPTY, acts);
    more := SendAll(cfg, h);
    RunsCompose(cfg, EMPTY, acts, more);
    RunKeepsInv(cfg, acts);
    RunKeepsInv(cfg, acts + more);
    ReceivedOnceSent(cfg, h, RunFrom(cfg, h, more), s);
  }

  lemma ReceivedOnceSent(cfg: Config, h: Hub, h': Hub, s: nat)
    requires DeliveryInv(cfg, h') && SameRooms(h, h') && h'.flights == map[]
    requires s in h.subs && h.subs[s].stage.Streaming? && h.subs[s].stage.answer.Replayed? && h.subs[s].since.Some?
    ensures h.subs[s].stage.channel < |h.histories|
    ensures var history := h.histories[h.subs[s].stage.channel];
            forall k :: h.subs[s].since.value <= k < |history| ==>
              history[k] in h.subs[s].stage.answer.messages || history[k] in h'.subs[s].received
  {
    assert SubOk(cfg, h'.histories, h'.flights, h'.subs[s]);
    var history := h.histories[h.subs[s].stage.channel];
    forall k | h.subs[s].since.value <= k < |history|
      ensures history[k] in h.subs[s].stage.answer.messages || history[k] in h'.subs[s].received
    {
      ReplayMeetsTheReceiver(cfg, h'.histories, h'.flights, h'.subs[s], k);
    }
  }

  function HalfDone(h: Hub): set<nat> {
    set s | s in h.subs && h.subs[s].stage.Leaving?
  }

  lemma {:induction false} RemoveAll(cfg: Config, h: Hub) returns (acts: seq<Action>)
    ensures NoDropHalfDone(RunFrom(cfg, h, acts))
    decreases |HalfDone(h)|
  {
    if HalfDone(h) == {} {
      acts := [];
      assert forall s :: s in h.subs && h.subs[s].stage.Leaving? ==> s in HalfDone(h);
    } else {
      var s :| s in HalfDone(h);
      var h1 := Next(cfg, h, Remove(s));
      assert HalfDone(h1) == HalfDone(h) - {s};
      acts := RemoveAll(cfg, h1);
      OneStep(cfg, h, Remove(s));
      RunsCompose(cfg, h, [Remove(s)], acts);
      acts := [Remove(s)] + acts;
    }
  }

  /** From any state the drops under way can be finished, and then only rooms with a subscriber are tracked. */
  lemma DropsComplete(cfg: Config, acts: seq<Action>) returns (more: seq<Action>)
    ensures var h := RunFrom(cfg, EMPTY, acts + more);
            forall id :: id in h.rooms <==> HasSubscriber(h, id)
  {
    more := RemoveAll(cfg, RunFrom(cfg, EMPTY, acts));
    RunsCompose(cfg, EMPTY, acts, more);
    SettledRoomsHaveSubscribers(cfg, acts + more);
  }
}
