/**
 * The room map of `InMemoryHub`, one method per shard-lock critical section.
 * `RealtimeProtocol` interleaves these sections.
 */
module RealtimeHub {
  import opened Common
  import opened RoomBacklog

  type RoomId(==, !new)
  type Rooms = map<RoomId, Room>

  function Lookup(rooms: Rooms, id: RoomId): Option<Room> {
    if id in rooms then Some(rooms[id]) else None
  }

  /** A publish as it left the room's lock: stamped, and bound to the channel it will be sent on. */
  datatype Stamped = Stamped(channel: nat, message: Message)

  function StampOf(room: Room, payload: seq<bv8>): Stamped {
    Stamped(room.channel, Message(payload, room.nextVersion))
  }

  function RoomAfterStamp(cfg: Config, room: Room, payload: seq<bv8>): Room {
    var m := StampOf(room, payload).message;
    if cfg.backlog > 0 && cfg.maxBytes > 0 then
      var ring := LongestFit(cfg, room.ring + [m]);
      room.(nextVersion := room.nextVersion + 1, ring := ring, ringBytes := Bytes(ring))
    else
      room.(nextVersion := room.nextVersion + 1)
  }

  function RoomAfterEnter(room: Option<Room>, freshChannel: nat): Room {
    if room.Some? then room.value.(subscribers := room.value.subscribers + 1)
    else Room(freshChannel, 1, 1, [], 0)
  }

  function RoomAfterDecrement(room: Room): Room {
    room.(subscribers := if room.subscribers == 0 then 0 else room.subscribers - 1)
  }

  predicate Idle(rooms: Rooms, id: RoomId) {
    id in rooms && rooms[id].subscribers == 0
  }

  class InMemoryHub {
    const cfg: Config
    var rooms: Rooms
    /** Channels created so far; the next room to be created gets this number. */
    var channels: nat

    ghost predicate Valid() reads this {
      forall id :: id in rooms ==> rooms[id].ringBytes == Bytes(rooms[id].ring)
    }

    constructor (maxRooms: nat, backlog: nat, maxBytes: nat)
      ensures Valid() && rooms == map[] && channels == 0
      ensures cfg == Config(Max(maxRooms, 1), backlog, maxBytes)
    {
      cfg := Config(Max(maxRooms, 1), backlog, maxBytes);
      rooms := map[];
      channels := 0;
    }

    /** Stamps a message with the room's next version and retains it; `None` when nobody subscribes. */
    method StampAndRetain(id: RoomId, payload: seq<bv8>) returns (stamped: Option<Stamped>)
      requires Valid()
      modifies this
      ensures Valid() && channels == old(channels)
      ensures id !in old(rooms) ==> stamped == None && rooms == old(rooms)
      ensures id in old(rooms) ==>
                && stamped == Some(StampOf(old(rooms)[id], payload))
                && rooms == old(rooms)[id := RoomAfterStamp(cfg, old(rooms)[id], payload)]
    {
      if id !in rooms {
        return None;
      }
      var entry := rooms[id];
      var msg := Message(payload, entry.nextVersion);
      var ring, bytes := entry.ring, entry.ringBytes;
      if cfg.backlog > 0 && cfg.maxBytes > 0 {
        BytesAppend(ring, [msg]);
        ring, bytes := ring + [msg], bytes + |payload|;
        ghost var whole := ring;
        while |ring| > cfg.backlog || bytes > cfg.maxBytes
          invariant bytes == Bytes(ring)
          invariant LongestFit(cfg, ring) == LongestFit(cfg, whole)
          decreases |ring|
        {
          if ring == [] {
            break;
          }
          bytes := bytes - |ring[0].payload|;
          ring := ring[1..];
        }
      }
      rooms := rooms[id := entry.(nextVersion := entry.nextVersion + 1, ring := ring, ringBytes := bytes)];
      return Some(Stamped(entry.channel, msg));
    }

    /** The `entry()` arm of `register_subscriber`: join the channel or create the room. */
    method Enter(id: RoomId) returns (channel: nat)
      requires Valid()
      modifies this
      ensures Valid()
      ensures rooms == old(rooms)[id := RoomAfterEnter(Lookup(old(rooms), id), old(channels))]
      ensures channel == rooms[id].channel
      ensures channels == if id in old(rooms) then old(channels) else old(channels) + 1
    {
      if id in rooms {
        rooms := rooms[id := rooms[id].(subscribers := rooms[id].subscribers + 1)];
      } else {
        rooms := rooms[id := Room(channels, 1, 1, [], 0)];
        channels := channels + 1;
      }
      return rooms[id].channel;
    }

    /** `register_subscriber` with nobody in between: only a new room can be refused, and then nothing changes. */
    method RegisterSubscriber(id: RoomId) returns (channel: Option<nat>)
      requires Valid()
      modifies this
      ensures Valid()
      ensures channel.None? <==> id !in old(rooms) && |old(rooms)| >= cfg.maxRooms
      ensures channel.None? ==> rooms == old(rooms) && channels == old(channels)
      ensures channel.Some? ==>
                && rooms == old(rooms)[id := RoomAfterEnter(Lookup(old(rooms), id), old(channels))]
                && channel.value == rooms[id].channel
                && (|old(rooms)| <= cfg.maxRooms ==> |rooms| <= cfg.maxRooms)
    {
      if id !in rooms && |rooms| >= cfg.maxRooms {
        return None;
      }
      var joined := Enter(id);
      assert rooms.Keys == old(rooms).Keys + {id};
      assert |rooms| == |rooms.Keys| && |old(rooms)| == |old(rooms).Keys|;
      return Some(joined);
    }

    /** First half of `RoomGuard::drop`. */
    method Decrement(id: RoomId) returns (collected: bool)
      requires Valid()
      modifies this
      ensures Valid() && channels == old(channels)
      ensures id !in old(rooms) ==> !collected && rooms == old(rooms)
      ensures id in old(rooms) ==>
                && rooms == old(rooms)[id := RoomAfterDecrement(old(rooms)[id])]
                && (collected <==> Idle(rooms, id))
    {
      collected := false;
      if id in rooms {
        var n := rooms[id].subscribers;
        rooms := rooms[id := rooms[id].(subscribers := if n == 0 then 0 else n - 1)];
        collected := rooms[id].subscribers == 0;
      }
    }

    /** Second half of `RoomGuard::drop`: `remove_if` re-checks under the lock. */
    method RemoveIfIdle(id: RoomId)
      requires Valid()
      modifies this
      ensures Valid() && channels == old(channels)
      ensures rooms == if Idle(old(rooms), id) then old(rooms) - {id} else old(rooms)
    {
      if id in rooms && rooms[id].subscribers == 0 {
        rooms := rooms - {id};
      }
    }

    method ReadBacklog(id: RoomId, since: Option<nat>, existed: bool) returns (answer: Answer)
      ensures answer == ReadAnswer(cfg, Lookup(rooms, id), since, existed)
    {
      if since.None? || cfg.backlog == 0 || !existed || id !in rooms {
        return Unavailable;
      }
      var entry := rooms[id];
      if entry.ring == [] {
        return if entry.nextVersion == 1 then Replayed([]) else Unavailable;
      }
      var oldest := entry.ring[0].version;
      if oldest > since.value + 1 {
        return Gap(oldest);
      }
      return Replayed(Newer(entry.ring, since.value));
    }
  }
}
