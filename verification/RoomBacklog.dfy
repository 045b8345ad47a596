/**
 * A room's retained backlog: a ring bounded by message count and by total
 * payload bytes, trimmed from the front by `stamp_and_retain`, and the answer
 * `subscribe_since` reads out of it.
 */
module RoomBacklog {
  import opened Common

  datatype Message = Message(payload: seq<bv8>, version: nat)

  /** `backlog` and `maxBytes` may be zero, which disables retention. `maxRooms` is clamped to at least 1. */
  datatype Config = Config(maxRooms: nat, backlog: nat, maxBytes: nat)

  /** `channel` identifies the broadcast channel, one per incarnation of the room. */
  datatype Room = Room(channel: nat, subscribers: nat, nextVersion: nat, ring: seq<Message>, ringBytes: nat)

  datatype Answer = Replayed(messages: seq<Message>) | Gap(oldest: nat) | Unavailable

  // ---------------------------------------------------------------- what is retained

  function Bytes(ms: seq<Message>): nat {
    if ms == [] then 0 else |ms[0].payload| + Bytes(ms[1..])
  }

  predicate Fits(cfg: Config, ms: seq<Message>) {
    |ms| <= cfg.backlog && Bytes(ms) <= cfg.maxBytes
  }

  /** Reference: the longest suffix of a whole publish history that fits both limits. */
  function LongestFit(cfg: Config, history: seq<Message>): seq<Message> {
    if Fits(cfg, history) || history == [] then history else LongestFit(cfg, history[1..])
  }

  function Retained(cfg: Config, history: seq<Message>): seq<Message> {
    if cfg.backlog > 0 && cfg.maxBytes > 0 then LongestFit(cfg, history) else []
  }

  lemma {:induction false} BytesAppend(xs: seq<Message>, ys: seq<Message>)
    ensures Bytes(xs + ys) == Bytes(xs) + Bytes(ys)
  {
    if xs == [] {
      assert xs + ys == ys;
    } else {
      BytesAppend(xs[1..], ys);
      assert (xs + ys)[1..] == xs[1..] + ys;
    }
  }

  /** All payloads, one after the other: what the byte limit is about. */
  function Joined(ms: seq<Message>): seq<bv8> {
    if ms == [] then [] else ms[0].payload + Joined(ms[1..])
  }

  lemma {:induction false} BytesCountPayloads(ms: seq<Message>)
    ensures Bytes(ms) == |Joined(ms)|
  {
    if ms != [] {
      BytesCountPayloads(ms[1..]);
    }
  }

  /** `LongestFit` really is the longest: it is a suffix, it fits, and no longer suffix does. */
  lemma {:induction false} LongestFitIsLongest(cfg: Config, history: seq<Message>)
    ensures var n := |LongestFit(cfg, history)|;
            && n <= |history|
            && LongestFit(cfg, history) == history[|history| - n..]
            && n <= cfg.backlog && |Joined(LongestFit(cfg, history))| <= cfg.maxBytes
            && forall c :: 0 <= c < |history| - n ==> |history| - c > cfg.backlog || |Joined(history[c..])| > cfg.maxBytes
  {
    BytesCountPayloads(LongestFit(cfg, history));
    if !Fits(cfg, history) && history != [] {
      var rest := history[1..];
      LongestFitIsLongest(cfg, rest);
      var n := |LongestFit(cfg, history)|;
      forall c | 0 <= c < |history| - n ensures |history| - c > cfg.backlog || |Joined(history[c..])| > cfg.maxBytes {
        if c == 0 {
          assert history[0..] == history;
          BytesCountPayloads(history);
        } else {
          assert history[c..] == rest[c - 1..];
        }
      }
    }
  }

  /** Trimming the ring message by message gives the same ring as trimming the whole history at once. */
  lemma {:induction false} RetentionIsIncremental(cfg: Config, history: seq<Message>, m: Message)
    ensures LongestFit(cfg, LongestFit(cfg, history) + [m]) == LongestFit(cfg, history + [m])
  {
    if !Fits(cfg, history) && history != [] {
      RetentionIsIncremental(cfg, history[1..], m);
      BytesAppend(history, [m]);
      assert (history + [m])[1..] == history[1..] + [m];
    }
  }

  // ---------------------------------------------------------------- what a reader is told

  ghost predicate Numbered(history: seq<Message>) {
    forall i :: 0 <= i < |history| ==> history[i].version == i + 1
  }

  function Newer(ms: seq<Message>, since: nat): seq<Message> {
    if ms == [] then []
    else (if ms[0].version > since then [ms[0]] else []) + Newer(ms[1..], since)
  }

  /** The answer `subscribe_since` builds from the room entry it finds. */
  function ReadAnswer(cfg: Config, room: Option<Room>, since: Option<nat>, existed: bool): Answer {
    if since.None? || cfg.backlog == 0 || !existed || room.None? then Unavailable
    else
      var ring := room.value.ring;
      if ring == [] then
        if room.value.nextVersion == 1 then Replayed([]) else Unavailable
      else if ring[0].version > since.value + 1 then Gap(ring[0].version)
      else Replayed(Newer(ring, since.value))
  }

  /** The part of a numbered history strictly after `since`. */
  function After(history: seq<Message>, since: nat): seq<Message> {
    history[Min(since, |history|)..]
  }

  lemma {:induction false} NewerOfSuffix(history: seq<Message>, from: nat, since: nat)
    requires Numbered(history) && from <= |history|
    ensures Newer(history[from..], since) == history[Max(from, Min(since, |history|))..]
    decreases |history| - from
  {
    if from < |history| {
      NewerOfSuffix(history, from + 1, since);
      assert history[from..][1..] == history[from + 1..];
      assert since <= from ==> history[from..] == [history[from]] + history[from + 1..];
    }
  }

  /** The entry of a live room, as the history of its channel determines it. */
  ghost predicate RoomMatches(cfg: Config, room: Room, history: seq<Message>) {
    && room.nextVersion == |history| + 1
    && room.ring == Retained(cfg, history)
    && room.ringBytes == Bytes(room.ring)
  }

  /**
   * What each answer means for the client, and when it is given. `Unavailable`
   * exactly without a version, a backlog or a room to resume, or when everything
   * published is gone; otherwise `Gap`, naming the oldest version retained, if
   * version `since + 1` was published and evicted, and `Replayed`, exactly the
   * contiguous versions after `since`, if not.
   */
  lemma AnswerMeaning(cfg: Config, room: Room, history: seq<Message>, since: Option<nat>, existed: bool)
    requires RoomMatches(cfg, room, history) && Numbered(history)
    ensures var ring := Retained(cfg, history);
            var dropped := |history| - |ring|;
            var answer := ReadAnswer(cfg, Some(room), since, existed);
            && (answer.Unavailable? <==> since.None? || cfg.backlog == 0 || !existed || (ring == [] && history != []))
            && (answer.Gap? ==> since.value + 1 <= dropped && answer.oldest == dropped + 1)
            && (answer.Replayed? ==>
                  && dropped <= since.value && answer.messages == After(history, since.value)
                  && |answer.messages| == (if since.value <= |history| then |history| - since.value else 0)
                  && forall i :: 0 <= i < |answer.messages| ==> answer.messages[i] == history[since.value + i])
  {
    RingIsNumbered(cfg, history);
    var ring := Retained(cfg, history);
    if since.Some? && ring != [] && |history| - |ring| <= since.value {
      NewerAreAfter(cfg, history, since.value);
    }
  }

  /** The ring starts one past what was dropped. */
  lemma RingIsNumbered(cfg: Config, history: seq<Message>)
    requires Numbered(history)
    ensures var ring := Retained(cfg, history);
            |ring| <= |history| && (ring != [] ==> ring[0].version == |history| - |ring| + 1)
  {
    LongestFitIsLongest(cfg, history);
  }

  /** Filtering the ring by version gives the history after `since`, if nothing of that was dropped. */
  lemma NewerAreAfter(cfg: Config, history: seq<Message>, since: nat)
    requires Numbered(history) && |Retained(cfg, history)| <= |history| && |history| - |Retained(cfg, history)| <= since
    ensures var ms := Newer(Retained(cfg, history), since);
            && ms == After(history, since)
            && |ms| == (if since <= |history| then |history| - since else 0)
            && forall i :: 0 <= i < |ms| ==> ms[i] == history[since + i]
  {
    RetainedIsSuffix(cfg, history);
    var dropped := |history| - |Retained(cfg, history)|;
    NewerOfSuffix(history, dropped, since);
    assert Max(dropped, Min(since, |history|)) == Min(since, |history|);
  }

  lemma RetainedIsSuffix(cfg: Config, history: seq<Message>)
    ensures |Retained(cfg, history)| <= |history|
    ensures Retained(cfg, history) == history[|history| - |Retained(cfg, history)|..]
  {
    LongestFitIsLongest(cfg, history);
  }
}
