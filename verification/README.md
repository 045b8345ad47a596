# Pharos RS: verified protocols

Pharos RS is a DDD/CQRS/event-driven framework. This project models the small
concurrent protocols at its centre and proves what they promise, for every
input and every interleaving:

- **Sagas** (`SagaStore`, `SagaProtocol`, `SagaRetries`, `SagaEffects`,
  `SagaRunner`): optimistic-concurrency event handling racing leased timeout
  sweeps.
- **Realtime rooms** (`RoomBacklog`, `RealtimeHub`, `RealtimeProtocol`,
  `RealtimeEffects`): version stamping, a bounded backlog, lossless reconnect,
  two-step room collection.
- **Outbox** (`OutboxStore`, `OutboxClaims`, `OutboxLifecycle`, `OutboxEffects`,
  `OutboxLanes`, `OutboxLaneRuns`): claims, message lifecycle, concurrent keyed
  lanes.
- **Event sourcing** (`EventSourcing`, `SnapshotProtocol`, `SnapshotEffects`):
  snapshots against full replay.
- **Transactional save and enqueue** (`UnitOfWork`, `UnitOfWorkProtocol`,
  `UnitOfWorkCalls`, `UnitOfWorkEffects`).
- **Idempotent consumer** (`Consumer`, with `RetryPolicy`), **upcaster chain**
  (`Upcast`) and **inbound token bucket** (`RateLimiter`).

Each protocol is a state machine. `Next(world, action)` is one atomic step of
the code: one lock-protected section, one await-delimited call, one entry of a
claim loop. A run is any sequence of actions, an action that is not enabled
changes nothing, and the theorems speak of every run. Code the user supplies
(`react`, `on_timeout`, handlers, publishers, upcasters, `apply`) is an arbitrary
function, or arbitrary data carried by the actions. For each protocol there are
three kinds of theorem: what every run keeps, what a run of one operation with
others in between can and cannot do, and (in the `Effects` modules) what an
operation that nobody interrupts achieves from any reachable state, written out
field by field. The stores, the loops and the in-place updates are also written
as classes and methods, whose contracts tie them to the functions the state
machines use.

Where the code and its documentation disagree, the model follows the code:
`DispatchConfig::concurrency` says that its default of 1 preserves the claim
order (`crates/pharos-messaging/src/outbox_dispatcher.rs:23-32`), but the batch
is grouped by key at every concurrency. `OutboxLaneRuns` gives a run that
reorders and proves for which batches every run keeps the order. The note on
`max_known_version` (`crates/pharos-app/src/upcast.rs:217-224`) that a gap can
hide an out-of-range version is overtaken by the gap check in `decode`; `Upcast`
proves that nothing passes over a gap.

`dafny verify dfyconfig.toml` checks the whole project.

The table lists the main results first, then the operations and the lemmas they
rest on. Constructors and setters that only assign have contracts but no row.

## Model

| member | source | states |
|---|---|---|
| `SagaProtocol.LinearHistory` | crates/pharos-saga/src/lib.rs:384-556 | no lost update: after any interleaving of calls and sweeps the stored row is the fold of the winning lines in order, its version is the number of successful saves plus claims, and each line was computed from exactly the version it replaced |
| `SagaProtocol.TerminalIsFrozen` | crates/pharos-saga/src/lib.rs:401-421 | once Completed or Failed, no continuation of the run changes the row |
| `SagaProtocol.CommandsComeFromWinners` | crates/pharos-saga/src/lib.rs:471-556 | every queued command belongs to one history line; that line is a save that replaced exactly the version it was computed from and emitted its own transition's commands, a claim or a cleared deadline with none, or a `Fail` with its commands whose author had loaded nothing stored; what a line has queued is a prefix of its commands in order |
| `SagaProtocol.ReliableRunsQueueEveryBatch` | crates/pharos-saga/src/lib.rs:633-649 | without crashes or failed inserts each finished batch is queued exactly once and in full |
| `SagaProtocol.SaveWinsExactly` | crates/pharos-saga/src/lib.rs:423-556 | a save wins if and only if nobody wrote the row since it was read and it is not a `Start` over a loaded instance; a loser changes no row, no history and no outbox, and a `handle` call then loads again, up to its eighth loss, while a sweep ends |
| `SagaProtocol.ClaimsAreALeaseApart` | crates/pharos-memory/src/in_memory_saga_store.rs:136-185 | two claims of one saga with no save between them are at least the first lease apart in their `now` values |
| `SagaEffects.HandleTakesEffect` | crates/pharos-saga/src/lib.rs:384-556 | from any reachable state an uninterrupted `handle` leaves exactly the row its transition describes, field by field, queues exactly its commands in order and touches no other row |
| `SagaEffects.HandleHasNoEffect` | crates/pharos-saga/src/lib.rs:395-421 | and changes nothing when the saga errs or ignores the event, or is Completed or Failed |
| `SagaEffects.TimeoutTakesEffect` | crates/pharos-saga/src/lib.rs:592-621 | the same for a claimed timeout whose row nobody wrote since; an ignored one only loses its deadline, and the sweep goes on with the next copy |
| `SagaEffects.SweepClaims` | crates/pharos-memory/src/in_memory_saga_store.rs:136-185 | the claim pass, row by row under the mutex, claims exactly what the store's `claim_due` claims and hands the sweep the same copies |
| `SagaEffects.TransitionsWereAnswered` | crates/pharos-saga/src/lib.rs:395-423 | every transition saved or logged in any run was the saga's own answer to an event or timeout of that saga |
| `SagaRetries.GivingUpTakesEightWrites` | crates/pharos-saga/src/lib.rs:349-434 | if sagas start only when absent, at least eight writes of the saga landed between the first load and the last refused save of such a call |
| `SagaRetries.GivingUpTakesEightLosses` | crates/pharos-saga/src/lib.rs:392-433 | a call among interleaved calls that returned `Conflict` lost eight attempts in disjoint load-to-save windows, each to a write of its saga inside the window or by starting a saga it had found stored |
| `RealtimeProtocol.HandoverLosesNothing` | crates/pharos-realtime/src/memory.rs:391-470 | after `Replayed`, every version above `since` is in the replay, in what the receiver was sent, or still between stamp and send |
| `RealtimeEffects.HandoverCompletes` | crates/pharos-realtime/src/memory.rs:391-470 | from any state, once the publishes in flight are sent, every version after `since` is in the replay or was received |
| `RealtimeEffects.PublishTakesEffect` | crates/pharos-realtime/src/memory.rs:225-245 | an uninterrupted publish gives the payload the next version, records it and hands it to every subscriber of the room and to nobody else; without a room nothing happens |
| `RealtimeEffects.SubscribeTakesEffect` | crates/pharos-realtime/src/memory.rs:249-299 | an uninterrupted subscribe is refused, without a trace, exactly for a new room at the ceiling; otherwise it joins the room or creates it on a fresh channel, from its next version on |
| `RealtimeEffects.DropTakesEffect` | crates/pharos-realtime/src/memory.rs:318-332 | an uninterrupted drop leaves one subscriber less, and the room goes exactly with the last one |
| `RealtimeEffects.DropsComplete` | crates/pharos-realtime/src/memory.rs:318-332 | from any state the drops under way can be finished, and then the tracked rooms are those with a subscriber |
| `RealtimeProtocol.AnswersTellTheTruth` | crates/pharos-realtime/src/memory.rs:416-470 | every answer given in any run is the one the history at the moment of reading calls for: `Unavailable` if and only if it must be, `Gap` only for an evicted `since + 1`, `Replayed` exactly the versions after `since` |
| `RealtimeProtocol.DeliveryIsGenuineAndUnique` | crates/pharos-realtime/src/memory.rs:391-405 | a receiver is sent only messages stamped on its own channel, each at most once |
| `RealtimeProtocol.RoomOutlivesItsSubscribers` | crates/pharos-realtime/src/memory.rs:249-332 | in every interleaving a live subscriber's room is tracked under the channel it joined and its count is the number of guards not yet decremented, so no guard decrements a later incarnation |
| `RealtimeProtocol.SettledRoomsHaveSubscribers` | crates/pharos-realtime/src/memory.rs:318-332 | when no drop is half done the tracked rooms are exactly those with a live subscriber |
| `RealtimeProtocol.RingIsLongestFit` | crates/pharos-realtime/src/memory.rs:225-245 | over every run each ring is a suffix of everything published to that incarnation, within both limits and maximal, empty when retention is off; versions run from 1 to `next_version - 1` and the byte count is exact |
| `RealtimeProtocol.CeilingIsHard` | crates/pharos-realtime/src/memory.rs:255-294 | with at most T subscribes in flight, tracked rooms together with admitted ones never exceed `max_rooms - 1 + T`, whatever is collected in between |
| `RealtimeProtocol.SoloSubscribesMeetTheCeiling` | crates/pharos-realtime/src/memory.rs:255-294 | with one subscribe at a time the ceiling is exact |
| `RealtimeProtocol.CeilingCanBeOvershot` | crates/pharos-realtime/src/memory.rs:255-294 | two racing subscribes exceed a ceiling of one: the bound is tight |
| `OutboxClaims.ClaimsExclude` | crates/pharos-memory/src/in_memory_outbox.rs:74-116 | entry-by-entry interleaving of any number of `pending` calls with everything else: each claim found its message pending and due, and two claims of one message with no retry between them are at least a lease apart |
| `OutboxEffects.MessagesAreKept` | crates/pharos-memory/src/in_memory_outbox.rs:74-158 | through every continuation of every lifecycle run a stored message keeps its id, key, body and creation time |
| `OutboxClaims.MessagesAreKept` | crates/pharos-memory/src/in_memory_outbox.rs:74-187 | the same under entry-level interleaving of claims with every other operation |
| `OutboxClaims.PendingTakesEffect` | crates/pharos-memory/src/in_memory_outbox.rs:95-112 | an uninterrupted claim pass over any distinct candidates claims exactly those pending and due, moves only their `next_attempt_at`, to a lease from now, and returns them so, in order |
| `OutboxLifecycle.StatusesOnlyAdvance` | crates/pharos-messaging/src/outbox.rs:105-123 | over any run statuses only move Pending to Published, or Pending to Failed to DeadLettered, and no message disappears |
| `OutboxLifecycle.AttemptsStayWithinBudget` | crates/pharos-messaging/src/messaging.rs:360-381 | attempts never exceed max(1, max_attempts) |
| `OutboxEffects.AttemptsCountPublishes` | crates/pharos-messaging/src/outbox_dispatcher.rs:285-295 | a message's attempts are the publisher's calls for it, plus one recorded and about to be made, so no run calls the publisher more than max(1, max_attempts) times for it |
| `OutboxEffects.DispatchTakesEffect` | crates/pharos-messaging/src/outbox_dispatcher.rs:279-341 | from any reachable state an uninterrupted claim and dispatch has exactly the outcome written out field by field: published, failed with its reason, or rescheduled |
| `OutboxEffects.SweepTakesEffect` | crates/pharos-messaging/src/outbox.rs:224-251 | an uninterrupted sweep parks the oldest failed, one record each in order, and marks exactly those |
| `OutboxLifecycle.OneRecordPerDeadLetter` | crates/pharos-messaging/src/outbox.rs:224-251 | the dead-letter queue holds exactly one record per dead-lettered message, equal to the message it came from |
| `OutboxLifecycle.SettlingDecides` | crates/pharos-messaging/src/outbox_dispatcher.rs:295-340 | a poisoned message fails at once, a transient failure fails exactly when the attempts are used up, otherwise the message stays pending until its backoff |
| `OutboxLanes.LanesPartitionTheBatch` | crates/pharos-messaging/src/outbox_dispatcher.rs:211-231 | the lanes are the batch, split: each keyed lane is all of its key in claim order, no key has two lanes, nothing is lost or duplicated |
| `OutboxLaneRuns.PerKeyOrder` | crates/pharos-messaging/src/outbox_dispatcher.rs:211-258 | for every batch, concurrency, interleaving and failure pattern, what was published of a key is a prefix of that key's claimed messages in claim order |
| `OutboxLaneRuns.ConcurrencyIsBounded` | crates/pharos-messaging/src/outbox_dispatcher.rs:211-256 | never more lanes under way than the configured concurrency, taken as at least one |
| `OutboxLaneRuns.ConcurrencyIsReached` | crates/pharos-messaging/src/outbox_dispatcher.rs:233-258 | and that many can be |
| `OutboxLaneRuns.FailureEndsTheLane` | crates/pharos-messaging/src/outbox_dispatcher.rs:237-253 | head-of-line blocking: after a failed record or publish a lane publishes nothing more in that run, whatever comes |
| `OutboxLaneRuns.ClaimOrderKeptExactlyWhenGrouped` | crates/pharos-messaging/src/outbox_dispatcher.rs:23-32 | at concurrency 1 every run, whatever fails in it, publishes a subsequence of the claim order if and only if no key reappears after another lane's message |
| `OutboxLaneRuns.InterleavedKeysAreReordered` | crates/pharos-messaging/src/outbox_dispatcher.rs:23-32 | the finished run without failures that claims [a, b, c] and publishes [a, c, b] |
| `SnapshotProtocol.SnapshotsAreFoldsOfPrefixes` | crates/pharos-es/src/lib.rs:338-364 | over every delete-free history of concurrent writers, delayed writes and failures, each stored snapshot is the fold of a prefix of its stream |
| `SnapshotProtocol.LookupRefinesFullReplay` | crates/pharos-es/src/lib.rs:302-326 | a lookup that loaded any snapshot earlier, or failed to, answers as full replay at the moment it loads the tail |
| `SnapshotProtocol.ReplayIsBounded` | crates/pharos-es/src/lib.rs:302-362 | with one writer, any number of processes looking up and no snapshot failure, a lookup begun while no snapshot was due replays fewer than `snapshot_every` events plus those appended since it loaded the snapshot, and fewer than `snapshot_every` exactly when those fit into what was left of the interval |
| `SnapshotProtocol.QuietReplayIsBounded` | crates/pharos-es/src/lib.rs:302-362 | so fewer than `snapshot_every` when nothing was appended in between |
| `SnapshotProtocol.OvertakenLookup` | crates/pharos-es/src/lib.rs:302-324 | the run in which an append overtakes a lookup, which then replays a whole interval |
| `SnapshotProtocol.LookupBeforeTheSnapshot` | crates/pharos-es/src/lib.rs:348-362 | the run in which a lookup begins between an append and its snapshot and replays a whole interval |
| `SnapshotEffects.SaveTakesEffect` | crates/pharos-es/src/lib.rs:302-364 | from any reachable state, looking an aggregate up, raising events and saving it without interruption extends its stream by exactly those events, numbered on, and leaves the aggregate that folding the new stream gives |
| `SnapshotEffects.CreateTakesEffect` | crates/pharos-es/src/lib.rs:338-346 | a new aggregate is saved as the first events of its stream |
| `UnitOfWorkProtocol.CommitsAreVersions` | crates/pharos-memory/src/in_memory_unit_of_work.rs:173-240 | over every interleaving the stored version is the number of committed saves, the stored aggregate is the last one committed, and commits replace each other's versions in order |
| `UnitOfWorkProtocol.OutboxIsTheCommittedBatches` | crates/pharos-memory/src/in_memory_unit_of_work.rs:182-196 | every committed batch maps in full, the outbox is the concatenation of the committed batches with a commit in progress contributing a prefix, and the rows of one aggregate are its batches in version order up to the stored version |
| `UnitOfWorkCalls.CallsAreAllOrNothing` | crates/pharos-app/src/unit_of_work.rs:208-261 | a finished call committed nothing and left its aggregate alone, or committed exactly once, on top of the version it held, with its state and all of its pending events |
| `UnitOfWorkCalls.FailedCallsChangeNothing` | crates/pharos-app/src/unit_of_work.rs:208-261 | over whole calls with others in between: a process that never passed the version check has committed nothing, and one that has committed nothing holds the version, state and pending events it held before and not the mutex |
| `UnitOfWorkCalls.CallsConflictExactly` | crates/pharos-memory/src/in_memory_unit_of_work.rs:213-240 | a call conflicts if and only if a commit has replaced the version its process held before the call, and the check changes neither store, outbox nor history |
| `UnitOfWorkEffects.CallTakesEffect` | crates/pharos-app/src/unit_of_work.rs:208-261 | from any reachable state with the mutex free, an uninterrupted call stores the aggregate one version on and one message per event in order if every event maps and the held version is current, and otherwise changes nothing |
| `Consumer.IdempotentConsumer.Drain` | crates/pharos-messaging/src/consume.rs:226-330 | the single-consumer loop terminates for any handler; each message ends acknowledged and Completed or dead-lettered exactly once, never both, and acknowledged exactly when it already was or some attempt in budget succeeds; its handler ran not at all, until its first success, or max(1, max_attempts) times |
| `Upcast.DecodeSucceedsExactly` | crates/pharos-app/src/upcast.rs:273-337 | decoding a registered type passes exactly when its version is at most the top and the chain composes; above the top it is rejected, below it a gap is never passed over |
| `Upcast.DecodeAbsorbsOneStep` | crates/pharos-app/src/upcast.rs:291-303 | decoding an envelope equals decoding its one-step upcast |
| `Upcast.TopIsOnePastTheLargest` | crates/pharos-app/src/upcast.rs:217-227 | so for any sequence of registrations |
| `RateLimiter.WindowBound` | crates/pharos-realtime/src/ws.rs:249-275 | in any window of time at most capacity plus rate times its length are admitted |
| `RateLimiter.LimiterRefusesOnlyAtTheBound` | crates/pharos-realtime/src/ws.rs:262-275 | a frame is refused only if admitting it would exceed capacity plus rate times the length of some window that closes with it |
| `RateLimiter.PacedClientsAreServed` | crates/pharos-realtime/src/ws.rs:262-275 | calls that leave `1 / rate` between them are all admitted |
| `RateLimiter.TokensStayInRange` | crates/pharos-realtime/src/ws.rs:262-275 | over every sequence of calls tokens stay between zero and capacity |
| `SagaStore.InMemorySagaStore.Save` | crates/pharos-memory/src/in_memory_saga_store.rs:87-128 | the compare-and-swap: accepted exactly at the stored version (0 when nothing is stored), and then this row, and only it, is the instance one version on; a refusal changes nothing and reports both versions |
| `SagaStore.InMemorySagaStore.SelectDue` | crates/pharos-memory/src/in_memory_saga_store.rs:145-160 | the selection is the min(limit, due) running instances with the soonest elapsed deadlines |
| `SagaStore.InMemorySagaStore.ClaimDue` | crates/pharos-memory/src/in_memory_saga_store.rs:136-185 | claims exactly the soonest due; the rows move to the lease and one version on, the returned copies carry the original deadline and the post-claim version |
| `SagaProtocol.VersionCountsWrites` | crates/pharos-memory/src/in_memory_saga_store.rs:87-185 | in any justified history the folded version counts the saves and claims of that saga |
| `SagaProtocol.WinnerEvolvesTheRow` | crates/pharos-saga/src/lib.rs:475-529 | the instance a winner built from its own copy is what its transition means on the stored row, and the save is justified by that row |
| `SagaProtocol.RunKeepsInv` | crates/pharos-saga/src/lib.rs:384-649 | every run keeps the invariant, and rows only move forward |
| `SagaProtocol.LostSaveHadAWrite` | crates/pharos-saga/src/lib.rs:423-429 | a save that loses without restarting had another write between its load and itself |
| `SagaRunner.Runner.ApplyTransition` | crates/pharos-saga/src/lib.rs:465-557 | saves the instance the transition describes and queues its commands exactly when the save was not lost; `Fail` with nothing stored queues without saving |
| `SagaRunner.Runner.Attempted` | crates/pharos-saga/src/lib.rs:394-429 | one load-to-save window: an attempt loses only if another write landed inside it or it restarts a stored saga |
| `SagaRunner.Runner.Handle` | crates/pharos-saga/src/lib.rs:384-434 | the outcome is determined by what the last attempt loaded and the saga's answer to it: react error, ignored, already terminal (stored and not running), accepted or rejected; with nobody else writing that is the first answer to the stored row. It gives up exactly after eight lost attempts and reports the last conflict; if `react` starts only absent sagas, each lost attempt's own window held another write |
| `SagaRunner.EveryLossHadAWrite` | crates/pharos-saga/src/lib.rs:349-434 | the counting argument behind it, over any list of lost attempts |
| `SagaRunner.Runner.Fire` | crates/pharos-saga/src/lib.rs:593-620 | one claimed timeout wins exactly when the row still has the version it saves at; then its commands are queued and the row is what its transition makes of the claimed copy; an ignored one only clears the deadline |
| `SagaRunner.Runner.FireAll` | crates/pharos-saga/src/lib.rs:591-622 | the sweep queues exactly the commands of the timeouts it got through, in order; it stops early only at an `on_timeout` error or at a row whose version had moved on; with nobody else writing the rows are those of firing the timeouts one by one |
| `SagaRunner.Runner.RunDueTimeouts` | crates/pharos-saga/src/lib.rs:576-623 | the same for a whole sweep, over the soonest due instances it claims |
| `RoomBacklog.LongestFitIsLongest` | crates/pharos-realtime/src/memory.rs:123-128 | the retained suffix is within the count and the payload bytes, and no longer suffix is |
| `RoomBacklog.RetentionIsIncremental` | crates/pharos-realtime/src/memory.rs:233-243 | trimming after every publish gives the same ring as trimming the whole history once |
| `RoomBacklog.AnswerMeaning` | crates/pharos-realtime/src/memory.rs:434-467 | which answer is given, exactly: `Unavailable` if and only if there is no version, no backlog, no earlier room or nothing left of what was published; otherwise `Gap`, naming the oldest retained, when `since + 1` was evicted, and the contiguous versions after `since` when not |
| `RealtimeHub.InMemoryHub.StampAndRetain` | crates/pharos-realtime/src/memory.rs:225-245 | stamps the next version and leaves the longest fitting suffix and its exact byte count, through the eviction loop |
| `RealtimeHub.InMemoryHub.RegisterSubscriber` | crates/pharos-realtime/src/memory.rs:249-299 | uninterrupted, refuses exactly a new room at the ceiling and then changes nothing; otherwise joins or creates and stays within the ceiling |
| `RealtimeHub.InMemoryHub.ReadBacklog` | crates/pharos-realtime/src/memory.rs:434-467 | the answer as `RoomBacklog.AnswerMeaning` explains it |
| `RealtimeProtocol.StepKeepsLife` | crates/pharos-realtime/src/memory.rs:249-332 | every step keeps the room-lifetime invariant |
| `RealtimeProtocol.StepKeepsDelivery` | crates/pharos-realtime/src/memory.rs:225-470 | every step keeps what is known about rings, flights, receivers and answers |
| `RealtimeProtocol.RunKeepsInv` | crates/pharos-realtime/src/memory.rs:225-470 | both invariants hold in every reachable state |
| `OutboxStore.InMemoryOutbox.Pending` | crates/pharos-memory/src/in_memory_outbox.rs:74-116 | uninterrupted, both passes claim exactly the oldest due messages; only their `next_attempt_at` changes, in the store and in the copies returned |
| `OutboxStore.InMemoryOutbox.SweepFailedToDeadLetter` | crates/pharos-messaging/src/outbox.rs:224-251 | parks the oldest failed messages, one faithful record each in order, and marks exactly those dead-lettered |
| `OutboxClaims.HoldOnlyMovesLater` | crates/pharos-memory/src/in_memory_outbox.rs:102-111 | without a retry, the hold of a claim only moves later |
| `OutboxClaims.RunKeepsInv` | crates/pharos-memory/src/in_memory_outbox.rs:74-128 | every run keeps the claim invariant |
| `OutboxLifecycle.LastStepAdvances` | crates/pharos-messaging/src/outbox_dispatcher.rs:279-341 | no single step moves a status otherwise |
| `OutboxLifecycle.RunKeepsInv` | crates/pharos-messaging/src/outbox_dispatcher.rs:279-341 | every run of inserts, dispatches and sweeps keeps the lifecycle invariant |
| `OutboxLanes.LaneFor` | crates/pharos-messaging/src/outbox_dispatcher.rs:222-229 | the lane that carries a key, found if and only if there is one |
| `OutboxLanes.BuildLanes` | crates/pharos-messaging/src/outbox_dispatcher.rs:217-231 | the loop with its key index builds exactly those lanes |
| `OutboxLanes.Dispatcher.DispatchOne` | crates/pharos-messaging/src/outbox_dispatcher.rs:279-341 | delivered exactly when the attempt was recorded and the publisher accepted; the message ends published, failed or rescheduled, field by field as the retry policy says, all others are untouched |
| `OutboxLanes.Dispatcher.RunLane` | crates/pharos-messaging/src/outbox_dispatcher.rs:233-254 | a lane publishes a prefix of itself, stopping exactly at the first message not delivered |
| `OutboxLaneRuns.KeyComesFromItsLane` | crates/pharos-messaging/src/outbox_dispatcher.rs:233-258 | what was published of a key is what its lane published |
| `OutboxLaneRuns.SequentialOrder` | crates/pharos-messaging/src/outbox_dispatcher.rs:211-258 | with concurrency 1 and no failure a finished run publishes lane after lane |
| `OutboxLaneRuns.RunKeepsInv` | crates/pharos-messaging/src/outbox_dispatcher.rs:233-258 | in every interleaving each lane has published a prefix of itself |
| `OutboxLaneRuns.FinishedRunKeepsOrderExactlyWhenGrouped` | crates/pharos-messaging/src/outbox_dispatcher.rs:23-32 | and a finished run without failures publishes exactly the claim order if and only if that holds |
| `OutboxLaneRuns.FinishedRunExists` | crates/pharos-messaging/src/outbox_dispatcher.rs:211-258 | every batch has a finished run without failures at concurrency 1 |
| `OutboxLaneRuns.SequentialRunsFollowTheLanes` | crates/pharos-messaging/src/outbox_dispatcher.rs:233-258 | with any failures, one lane at a time publishes the lanes in order with messages left out |
| `EventSourcing.LoadAfterIsTail` | crates/pharos-es/src/lib.rs:69-81 | `load_after` is the tail of the stream |
| `EventSourcing.FoldAppends` | crates/pharos-es/src/lib.rs:216-225 | folding an extended stream is applying the appended events |
| `EventSourcing.FoldSplits` | crates/pharos-es/src/lib.rs:311-323 | replaying a tail on the fold of its prefix is replaying everything |
| `EventSourcing.SnapshotReplayAgrees` | crates/pharos-es/src/lib.rs:302-326 | from any good starting point the lookup answers as full replay: same presence, state and version |
| `EventSourcing.InMemoryEventStore.Append` | crates/pharos-memory/src/in_memory_event_store.rs:68-113 | accepted exactly when the expected version is the stream's length; the events then follow, numbered on |
| `EventSourcing.FindByReplay` | crates/pharos-es/src/lib.rs:185-199 | the replay loop computes the fold of the stream and its length as version |
| `EventSourcing.SnapshottingRepository.FindById` | crates/pharos-es/src/lib.rs:302-326 | whether or not the snapshot loads, the answer is full replay |
| `EventSourcing.SnapshottingRepository.Save` | crates/pharos-es/src/lib.rs:338-364 | accepted exactly at the stream's version; the saved aggregate is what full replay gives, all snapshots stay folds of prefixes, and a crossed boundary refreshes the snapshot; a refused save changes no store but has drained the pending events |
| `EventSourcing.SavedIsReplayed` | crates/pharos-es/src/lib.rs:338-346 | appending what an up-to-date aggregate raised makes the stream describe that aggregate |
| `SnapshotProtocol.RunKeepsInv` | crates/pharos-es/src/lib.rs:302-364 | every run keeps the invariant |
| `UnitOfWork.InMemoryUnitOfWork.SaveInTx` | crates/pharos-memory/src/in_memory_unit_of_work.rs:213-240 | stages the aggregate at the next version exactly when the stored version matches; otherwise stages nothing |
| `UnitOfWork.InMemoryUnitOfWork.Commit` | crates/pharos-memory/src/in_memory_unit_of_work.rs:182-196 | applies the staged aggregate and appends the staged messages in order |
| `UnitOfWork.InMemoryUnitOfWork.SaveAndEnqueueIn` | crates/pharos-app/src/unit_of_work.rs:208-261 | fails on mapping or on conflict exactly when it should, leaving store, outbox, version and pending events untouched; otherwise stores the aggregate and all of its messages |
| `UnitOfWork.MapsEachEventOnce` | crates/pharos-app/src/unit_of_work.rs:226-230 | a batch maps exactly when each of its events does, to one message per event in order |
| `UnitOfWorkProtocol.RunKeepsInv` | crates/pharos-app/src/unit_of_work.rs:208-261 | every run keeps the invariant |
| `UnitOfWorkProtocol.RowsFollowVersions` | crates/pharos-app/src/unit_of_work.rs:226-246 | in any history in version order the rows of an aggregate are its batches, version by version |
| `Consumer.IdempotentConsumer.Nack` | crates/pharos-memory/src/in_memory_messaging.rs:92-116 | records it and, on requeue, puts the delivery at the back with one more attempt |
| `Consumer.IdempotentConsumer.BeginProcessing` | crates/pharos-memory/src/in_memory_inbox.rs:50-87 | the check-and-set with takeover of stale records |
| `Consumer.IdempotentConsumer.Process` | crates/pharos-messaging/src/consume.rs:226-330 | the whole flow for one delivery; the outcome is fixed by the inbox decision and the handler |
| `Consumer.ProcessingUsesUpAttempts` | crates/pharos-messaging/src/consume.rs:291-321 | the termination measure: processing lowers the remaining attempts summed over the queue |
| `Consumer.ProcessedIsSettledOrRequeued` | crates/pharos-messaging/src/consume.rs:252-326 | the processed message gets a verdict or is requeued once with one more attempt |
| `Consumer.OthersAreUntouched` | crates/pharos-messaging/src/consume.rs:252-326 | no other message changes its standing |
| `Consumer.ProcessKeepsInv` | crates/pharos-messaging/src/consume.rs:252-326 | conservation: every message stays queued once or has its verdict |
| `Consumer.ProcessKeepsFate` | crates/pharos-messaging/src/consume.rs:274-325 | which verdict a message has depends on its handler alone |
| `Upcast.RegistrationKeepsTop` | crates/pharos-app/src/upcast.rs:180-201 | registering keeps the memoised top one past the largest registered version |
| `Upcast.LiftIsComposition` | crates/pharos-app/src/upcast.rs:291-334 | the loop succeeds exactly when every step up to the top exists and succeeds, and yields their in-order composition at the top version |
| `Upcast.UnknownTypesPassThrough` | crates/pharos-app/src/upcast.rs:319-334 | an unregistered type passes unchanged |
| `Upcast.VersionedJsonCodec.Register` | crates/pharos-app/src/upcast.rs:180-201 | adds the upcaster and keeps the memoised top right |
| `Upcast.VersionedJsonCodec.Decode` | crates/pharos-app/src/upcast.rs:273-337 | the loop computes what the lemmas above describe, with every error case |
| `RateLimiter.InboundRateLimiter.TryAcquire` | crates/pharos-realtime/src/ws.rs:262-275 | refills rate times elapsed time up to the capacity, admits exactly when that makes a whole token, and takes it |
| `RateLimiter.EarningsAddUp` | crates/pharos-realtime/src/ws.rs:264-267 | refills are non-negative and adjacent stretches of time add up |
| `RateLimiter.WindowPotential` | crates/pharos-realtime/src/ws.rs:262-275 | what a window admitted plus what it left in the bucket is covered by capacity and the window's earnings |
| `SagaEffects.SweepEnds` | crates/pharos-saga/src/lib.rs:592-598 | a sweep ends, without a trace, when everything is fired or `on_timeout` errs |
| `SagaStore.PickedAreDue` | crates/pharos-memory/src/in_memory_saga_store.rs:145-160 | the selection, in statuses and deadlines: only running instances whose deadline has elapsed, soonest first, and all of them unless the limit is reached by sooner ones |
| `SagaRunner.Runner.TryOnce` | crates/pharos-saga/src/lib.rs:394-429 | one turn of the loop: each outcome belongs to what was loaded and what the saga answered to it, and leaves the row as found or as the transition makes it; otherwise a lost attempt with its cause |
| `OutboxEffects.InsertTakesEffect` | crates/pharos-memory/src/in_memory_outbox.rs:65-72 | a new message is stored as it is |
| `OutboxClaims.InsertTakesEffect` | crates/pharos-memory/src/in_memory_outbox.rs:65-72 | a new message is stored as it is |
| `OutboxStore.PickedAreOldest` | crates/pharos-memory/src/in_memory_outbox.rs:82-93 | the selection of `pending`: pending and due, oldest first with ties by id, all of them unless the limit is reached by older ones |
| `OutboxStore.PickedAreFailed` | crates/pharos-memory/src/in_memory_outbox.rs:160-176 | the same selection for `failed` |
| `SnapshotEffects.LookupTakesEffect` | crates/pharos-es/src/lib.rs:302-326 | an uninterrupted lookup holds the fold of the whole stream at its length, or nothing for an empty stream |
| `SnapshotEffects.AppendTakesEffect` | crates/pharos-es/src/lib.rs:338-362 | an append at the stream's version extends the stream and leaves a snapshot due exactly past a boundary; a late one changes no stream; both drain the raised events |
| `SnapshotEffects.SnapshotTakesEffect` | crates/pharos-es/src/lib.rs:352-362 | a written snapshot is state and version of its aggregate, and nothing else changes |
| `UnitOfWorkEffects.AggregatesAreHeldAsStored` | crates/pharos-memory/src/in_memory_unit_of_work.rs:105-113 | a process starts from a new aggregate at version 0 or from the stored one, and its edits add to the pending events |
| `Consumer.ProcessingMeans` | crates/pharos-messaging/src/consume.rs:252-326 | the flow record by record: what happens to a completed, a held and a handled message, and to nothing else |
| `Consumer.IdempotentConsumer.Turn` | crates/pharos-messaging/src/consume.rs:226-330 | one turn of the loop: `next`, then the flow |
| `Upcast.LiftFailsExactly` | crates/pharos-app/src/upcast.rs:291-334 | how decoding fails: at a missing step with everything below it composed, at a step that refuses what was composed below it, or for want of a payload |
| `Upcast.BadEnvelopesAreRejected` | crates/pharos-app/src/upcast.rs:273-289 | what is rejected before any version is looked at, and with which error |
| `RateLimiter.AdmitsExactly` | crates/pharos-realtime/src/ws.rs:262-275 | a call is admitted exactly when what is left and what was earned since the last call make a whole token |
| `RateLimiter.SinceLastFull` | crates/pharos-realtime/src/ws.rs:262-275 | since it was last full, the bucket holds its capacity and what it earned, less what it admitted |

## Left out

- Crates and modules whose properties are branch-level or rest on foreign code: HTTP and WebSocket glue, the `ws.rs` pump, observability, macros, protobuf and serde codecs, `Money`, `RoomId::parse`, `Traceparent`, `EventBus`, tenancy, consumer groups, the schema registry, the PostgreSQL and Kafka adapters.
- `updated_at` and `taken_at` timestamps, snapshot schema versions, failure texts, metrics and tracing.
- Machine integers: versions and counters are unbounded. `since + 1` at `u64::MAX`, version overflow, and registering an upcaster at `u32::MAX` (which overflows in the code) are not modelled.
- Ids are fresh: inserting an outbox message under an id already stored, which the map would overwrite, is not a step of the protocols.
- Sagas: a store whose `load` or `save` fails for other reasons than a conflict is covered by abandoning the call (`Crash`), not by a separate error; `id_for` answering nothing and `handle_any` are not modelled; a task dropped between two rows of a claim pass is treated like a crash.
- SagaRunner.Runner.Handle: the other writers are any schedule of saves and claims at its await points rather than other `handle` calls; `SagaProtocol` interleaves the real calls.
- Realtime: broadcast lag and channel capacity, so `received` is what a receiver that keeps up is handed; `DashMap::len` is one step. A `since` from an earlier incarnation of a room, or a room collected between the existence probe and registration, gets an answer about the incarnation that is read, as in the code.
- RealtimeProtocol.HandoverLosesNothing: live messages may arrive out of version order, because a publish sends after releasing the lock; the theorem promises arrival, not order.
- Outbox: the first pass of `pending` offers arbitrary candidates in `OutboxClaims`, since it races with everything. Per-key order is per dispatch run; across runs a backed-off head may be overtaken, and the code promises no more. The backoff delay is arbitrary and non-negative. `DispatchResult` counters, `publish_batch` and `insert_many` as a batch are not modelled.
- OutboxLifecycle.StatusesOnlyAdvance: holds because a begun dispatch ends inside its lease, sweeps do not overlap and none stops between parking and marking a message; the `mark_*` calls check no prior status, so without these the code does not provide it.
- OutboxLifecycle.OneRecordPerDeadLetter: the record of a message just being marked is there before its status is, so the head of a sweep in progress is stated separately.
- OutboxLanes.Dispatcher.RunLane: one lane alone; `OutboxLaneRuns` interleaves lanes and lets bookkeeping fail.
- Event sourcing: `delete` removes a stream but not its snapshot, so histories are delete-free; a live aggregate changes only by applying the events it raises. `AggregateEvents::restore` is not modelled.
- EventSourcing.SnapshottingRepository.Save: an aggregate at version 0 saved without events leaves an empty stream, for which full replay finds nothing; the contract names that case.
- Unit of work: the plain `Repository::save` and `delete`, which bypass the transaction mutex, and a process that dies in the middle of a commit.
- SnapshotProtocol.ReplayIsBounded: the plain bound of `snapshot_every` events is false for a lookup that an append overtakes or that begins before a due snapshot is written; `OvertakenLookup` and `LookupBeforeTheSnapshot` are such runs, and the bound is stated for the others and for what was appended since.
- UnitOfWorkProtocol.OutboxIsTheCommittedBatches: the outbox is kept as the sequence of inserts, not as a map by message id.
- Consumer: a dead letter keeps the message id and the attempts only; one consumer name and one consumer at a time, because a retried failure is not marked as processing again; failing stores; `process_idempotent` without retry; the stored error text.
- Upcast: the typed deserialisation after the last step, and `encode`.
- RateLimiter.WindowBound: reals instead of `f64`, and a clock that does not run backwards within the run; rounding is not modelled.
