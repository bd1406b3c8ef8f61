# Verification of the game backend's shared state

A Dafny 4.11 model of the parts of the backend that several threads or processes touch at once, together with the
bounded or stored copies that must agree with them, and proofs about every run of them. One command, `dafny verify
dfyconfig.toml`, takes all files.

What is modelled, and how:

- **The match queue** (`MatchCore`, `MatchQueue`, `MatchProtocol`, `MatchTheorems`, `MatchOutcomes`,
  `MatchRequests`, `MatchRounds`, `MatchStranded`, `MatchExamples`). Pairing takes players under the lock, allocates
  a room outside it and commits under it again. Each critical section is one atomic step; a thread inside a pairing
  round holds its groups in between, or hands them to the allocation worker, and any number of threads enqueue,
  cancel, ask and pair at once. `MatchQueue` is the class whose methods are those sections. Snapshots, the dirty
  flag and the flush are steps of the same system.
- **Its snapshot and restart** (`MatchSnapshot`, `SnapshotCodec`, `MatchStore`, `MatchRedis`, `MatchRestart`): the
  line format, the list of lines in Redis and the commands and replies that replace it, and what a restart makes of
  it.
- **The battle room** (`RoomCore`, `BattleRoom`, `RoomRuns`, `RoomEvents`, `RoomLife`, `RoomHistory`): lifecycle,
  damage, catch-up ticks, reconnect grace, results, and the ring of the last 128 snapshots against the unbounded
  history it stands for. `RoomCore` is the room as a value with all its history; `BattleRoom` is the class, with the
  ring; `RoomEvents` and `RoomLife` say what becomes of a room in terms of the requests and reports it was sent.
- **Room rows, the registry and results** (`RoomStore`, `RoomsTable`, `ManagerCore`, `RoomManager`, `RegistryRuns`,
  `RowSchedule`, `ResultProtocol`): the row written and read back, the newest-timestamp-wins upsert column by
  column, the two inverse tables of the manager through crashes and starts, when each room's row is taken, and the
  write of results outside the lock with retries, lost replies, crashes and restores, against the first-write-wins
  results table.
- **The push stream** (`StreamCore`, `StreamHub`, `StreamProtocol`, `StreamResume`, `StreamTheorems`, `StreamFirst`,
  `StreamPending`, `StreamExamples`, `StreamText`, `StreamJson`, `Sse`, `StreamDelivery`): subscriptions, back-fill,
  live pushes and the ticking thread, one room call, one write or one locked section at a time, among subscribers
  that come and go and rooms that take any of their steps; the text of the events (section 9.2 of the WHATWG HTML
  Standard, escapes of section 7 of RFC 8259) and the browser's incremental reader.
- **Login idempotency** (`Sessions`): the chain GET, HSET, EXPIRE, SET NX, GET, DEL of any number of calls,
  interleaved command by command.
- **Histograms** (`Histogram`): counting, cumulative export and the interpolated quantile, over real numbers.

`Wrappers`, `Seqs`, `Maps`, `Decimals` and `Redis` (how a command ends) hold shared vocabulary.

Where the source works step by step, a class or method with loops has the same steps and its `ensures` ties the new
state to a specification function of the old one; the properties are then lemmas about those functions and about
runs of them.

## Main results

- Match queue, in every interleaving: `MatchTheorems.EveryPlayerInOnePlace`, `MatchTheorems.MatchedPlayersAgree`,
  `MatchOutcomes.RoomIsTheAllocatorsAnswer`, `MatchTheorems.CancelledNeverMatched`, `MatchTheorems.NoLostUpdate`,
  `MatchRequests.ShutdownAdmitsNobody`, `MatchStranded.StrandedIff`, `MatchStranded.StrandedPlayersWait`,
  `MatchTheorems.WorkerIsNeverUsed`.
- Its crash and restart: `MatchStore.CrashAtAnyMoment`, `MatchStore.CrashAfterFlush`,
  `MatchRedis.FlushThroughRedis`, `MatchRedis.CrashLeavesAState`, `MatchRestart.RestartSimulation`,
  `SnapshotCodec.RoundTrip`, `SnapshotCodec.EncodedLineIsSelfDelimiting`.
- Rooms, over every run: `RoomEvents.AttacksHurtTheOther`, `RoomEvents.OnlineIsLastReport`,
  `RoomEvents.AbsenceDecidesIff`, `RoomRuns.HpCountsHits`, `RoomRuns.VerdictIsSound`, `RoomRuns.GraceIsSound`,
  `RoomRuns.NeverTooFast`, `RoomHistory.WindowRefinesLog`.
- Rows, registry and results, through crashes: `RegistryRuns.RegistryStaysInOrder`, `RowSchedule.TickTakesIff`,
  `RowSchedule.EveryRoomHasAFreshRow`, `RoomStore.ReadBackIffNotDisconnect`, `RoomsTables.SaveOrderIrrelevant`,
  `ResultProtocol.RowsNeverChange`, `ResultProtocol.AnswersAgree`.
- The stream, over every run of the hub: `StreamTheorems.ResumeWithoutGapOrDuplicate`,
  `StreamPending.OneResetPerTick`, `StreamPending.TooLongAwayNeverLive`, `StreamFirst.ReadyIsFirstIff`,
  `StreamFirst.AloneReadyIsFirstIff`; and on to the browser, whatever the network cuts:
  `StreamDelivery.ResumedBrowserCountsOn`, `Sse.PrinterAndReaderUndoEachOther`, `Sse.CutStreamDeliversPrefix`,
  `StreamJson.StateReachesTheClient`.
- Logins, command by command: `Sessions.SameRequestSameToken`, `Sessions.AnswerHasSession`,
  `Sessions.SessionIsItsCallers`, `Sessions.EverySessionIsAccountedFor`.
- Quantiles: `Histograms.ReportedQuantileBracketsTheTrueOne`.

## Where the code falls short of its documentation

The model follows the code. In these places the code does not do what its comments or documents say. For each, a
lemma says exactly when the code does (for the allocation worker: never), and a concrete run or input shows that it
need not.

- `ParseFinishReason` has no case for `disconnect`, so the row of a game decided by disconnection is refused by the
  next start, and a result not yet written is lost (`RoomStore.ReadBackIffNotDisconnect`,
  `RoomStore.AliceLeftLosesBobsWin`).
- Groups of one round that all fail return to the queue in reverse order, so the queue is first come first served
  through a failed round only if the round took at most one group (`MatchRounds.FailedRoundKeepsFifo`,
  `MatchExamples.FailedRoundChangesOrder`).
- Players can be left waiting, two or more, with nothing to pair them until somebody enqueues: a group given up
  because one player cancelled sets no retry flag, nor does a restart (`MatchStranded.StrandedIff`,
  `MatchStranded.StrandedPlayersWait`, `MatchStranded.RestartStrandsIff`, `MatchExamples.CancelStrandsTwo`). A round
  that gets no id from the factory leaves players the same way (`MatchExamples.TwoArriveAndWait`); that is
  documented (src/match/match_queue.cpp:801-803), and needs a factory other than the one the process uses
  (src/match/match_main.cpp:107), which always answers.
- The allocation worker is meant to take groups while it is busy (src/match/match_queue.cpp:471-476,
  docs/devlog.md:4729-4730). It counts as busy only while groups wait in its queue, and only a busy worker is given
  any, so in every run from a start its queue stays empty: no group is ever handed to it, every allocation is made
  by the requesting thread, and no round is refused for too many rooms pending (`MatchTheorems.WorkerIsNeverUsed`,
  `MatchQueues.MatchQueue.RunPairingRound`).
- Only completed frames or a malformed id end a back-fill (`StreamTheorems.EndsExactlyWithFramesOrMalformed`). A
  client that resumes from the current frame, or from a later one, is sent `stream.reset` once for every tick until
  the room has newer frames (`StreamPending.OneResetPerTick`, `StreamTheorems.NewcomerIsResetTwice`), and one that
  has been away too long for as long as it stays, without ever becoming live (`StreamPending.TooLongAwayNeverLive`).
  The heartbeat of such a client is put off by every tick as well (`StreamTheorems.UpToDateClientIsResetAgain`).
- `session.ready` is meant as the first event of a subscription (docs/05-api-and-data.md:148), but a tick pushes the
  room's state before it, and it is first only if that push sends nothing (`StreamFirst.ReadyIsFirstIff`,
  `StreamFirst.FirstPushDecides`, `StreamExamples.StateComesBeforeReady`).
- A new subscriber is meant to be shown the room's state by its first tick (src/gateway/stream_hub.cpp:294-297).
  That holds for a room nobody else subscribes to (`StreamFirst.AloneReadyIsFirstIff`); otherwise a reset or a push
  to another client of the room can put the state back among the remembered ones first, and the new subscriber sees
  nothing until the state changes (`StreamExamples.ReadyWithoutState`).
- Error replies of Redis to HSET are not looked at, so a login can succeed without a session
  (`Sessions.AnswerHasSession`, `Sessions.RefusedWriteGoesUnnoticed`).
- The queue store looks at whether replies arrive and not at what they say
  (src/match/redis_match_queue_store.cpp:96-131). Once MULTI is accepted, a save that reports success has stored the
  new list exactly if no command was answered with an error, and one that reports failure has stored it exactly if
  all were carried out and a reply was lost (`MatchRedis.AnswerMeansStoredIff`,
  `MatchRedis.ErrorReplyGoesUnnoticed`, `MatchRedis.LostReplyHidesSave`). The queue only counts the report, so a
  state lost in this way is not written again before the next change (`MatchRedis.FlushThroughRedis`). If MULTI
  itself is answered with an error, half a list can be stored and success reported (`MatchRedis.NotGuarded`,
  `MatchRedis.HalfAListSaved`).
- A refused row written back as aborted stays in the way of later starts if its timestamp lies in the future
  (`RoomsTables.RefusedRowIsSettled`, `RoomsTables.AliceRowIsScannedAgain`).

## Assumptions

- Match, room and session ids from the generators are fresh (`ManagerCore.CreateKeepsInverse` says what a repeated
  room id does); match, room and player ids have at most 64 characters where the codec needs it.
- A room has two distinct players. `Create` does not check this.
- Times are 64-bit in the source and unbounded here; only the codec and the decimal texts depend on the width, and
  the codec has it. Clocks are positive and do not go back where a statement says so.
- Rows found at a start were written by an earlier process of this kind; `RegistryRuns` shows that rooms rebuilt
  from such rows are in order.
- Room ids are not reused, and a room's frames do not go back while a gateway serves it.

## Model

| member | source | states |
|---|---|---|
| MatchTheorems.EveryPlayerInOnePlace | src/match/match_queue.cpp:370-523 | In every interleaving of Enqueue, Cancel, GetStatus, sweeps and any number of pairing rounds, each tracked player is in exactly one place (once in the queue, in one group being allocated, matched, or timed out), nobody is in a place untracked, and groups in flight are disjoint pairs whose entries are still there |
| MatchTheorems.MatchedPlayersAgree | src/match/match_queue.cpp:836-868 | Whenever a player is matched, every member of its list is matched to the same match, room, members and stamp |
| MatchOutcomes.RoomIsTheAllocatorsAnswer | src/match/match_queue.cpp:836-868 | Over any run, a matched player was matched before it, or by one commit on the way: then the room is what the allocator answered to that commit, the match id and members are those of the group the committing thread held, and the stamp is the time of its round |
| MatchOutcomes.StepMatches | src/match/match_queue.cpp:370-523 | Only a commit whose allocator answered a room matches anybody, and only members of its group; every other step leaves matched players exactly as they were |
| MatchOutcomes.CommitGivesTheRoom | src/match/match_queue.cpp:846-868 | In any reachable state, a commit with a room and no recorded cancel among the members matches every member into that room, with the group's id and members and the time of its round, and touches nobody else and not the queue |
| MatchTheorems.MatchLeavesTogether | src/match/match_queue.cpp:723-769 | In one step of any thread the members of a match are all kept untouched or all dropped (or queue anew): they expire in the same sweep |
| MatchTheorems.CancelIntentSticks | src/match/match_queue.cpp:645-669 | A cancel recorded while a room is being allocated stays recorded and its player unmatched until the entry is dropped, whatever step comes next |
| MatchTheorems.CancelledNeverMatched | src/match/match_queue.cpp:836-868 | Over any continuation of the run, a player with a recorded cancel is never moved to matched while it stays tracked |
| MatchTheorems.NoLostUpdate | src/match/match_queue.cpp:152-293 | In every interleaving: if a snapshot taken now would differ from the last copy taken, the dirty flag is set or some thread still has its MarkSnapshotDirty call ahead |
| MatchRequests.PollsPairOnlyAfterFailures | src/match/match_queue.cpp:633-643 | Over any run, however often players poll: the rounds started by polls, and the one that may still be asked for, are no more than the failed allocations and the one asked for at the start |
| MatchRequests.StepRetry | src/match/match_queue.cpp:633-643 | After any step a retry is asked for exactly if the step is a failed allocation, or one was asked for and no poll took it |
| MatchRequests.ShutdownAdmitsNobody | src/match/match_queue.cpp:142-390 | Once the queue shuts down, in every continuation it tracks only players it tracked already and those whose request had passed the first check |
| MatchTheorems.IdleFlushStoresCurrentState | src/match/match_queue.cpp:252-293 | With all request threads idle, a flush whose transaction is carried out stores the current state, and a flush that writes nothing had nothing new to write |
| MatchTheorems.WorkerIsNeverUsed | src/match/match_queue.cpp:448-523 | In every interleaving from a start: no request finds the worker busy, no group is handed to it, it never begins with one, and no round is refused for rooms pending |
| MatchProtocol.StepKeepsInv | src/match/match_queue.cpp:370-670 | Every critical section of every request thread and of the allocation worker, and every flush step, keeps the whole system's invariant: places, groups in flight and their holders, dirty flag |
| MatchStranded.StrandedIff | src/match/match_queue.cpp:448-523 | In every reachable state, a step leaves two or more players queued with no retry pending and no thread about to run phase one, where that was not so, if and only if it is the last phase one under way and gets fewer ids than there are pairs, or the refusal of the last round under way, or a group given up for one cancel that joins a single waiting player |
| MatchStranded.StrandedPlayersWait | src/match/match_queue.cpp:633-643 | Along any run without a new enqueue and without a failed allocation, however often anybody polls: no round starts, and each stranded player keeps waiting as before, times out or is gone |
| MatchStranded.RestartStrandsIff | src/match/match_queue.cpp:33-140 | A process restarted from a snapshot begins in that state if and only if two or more of the players it lists as queued have not waited too long |
| MatchExamples.CancelStrandsTwo | src/match/match_queue.cpp:870-899 | From any start with an empty queue, a legal run of three enqueues, a cancel and a commit strands two players: one of a pair cancels, a third comes, the room is found |
| MatchExamples.TwoArriveAndWait | src/match/match_queue.cpp:797-807 | From any start with an empty queue, two players who enqueue are stranded if the id factory, one other than the default, answers nothing |
| MatchExamples.FailedRoundChangesOrder | src/match/match_queue.cpp:888-899 | From any start with an empty queue, a legal run in which a, b, c and d come one after the other and a round whose two allocations fail leaves c and d before a and b |
| MatchCore.SweepKeepsInv | src/match/match_queue.cpp:723-769 | A sweep keeps the queue without duplicates, its entries waiting, matches agreeing and groups in flight intact |
| MatchCore.EnqueueKeepsInv | src/match/match_queue.cpp:391-430 | Enqueue, including the re-entry of a timed-out player, keeps the invariant |
| MatchCore.CancelKeepsInv | src/match/match_queue.cpp:645-669 | Cancel keeps the invariant both when it erases the entry and when it only records the intent |
| MatchCore.TakeAllKeepsInv | src/match/match_queue.cpp:771-834 | Phase one of a round, for any answers of the id factory, moves players from the queue into disjoint groups in flight and keeps the invariant |
| MatchCore.CommitKeepsInv | src/match/match_queue.cpp:836-900 | Committing a group in flight, with a room or without, with members cancelled or not, keeps the invariant and ends the flight |
| MatchOutcomes.CommitReturns | src/match/match_queue.cpp:870-900 | A commit without a room or with a cancelled member drops exactly the cancelled ones, puts the others back at the front in order with their queueing time and request id, and asks for a retry exactly if there was no room |
| MatchOutcomes.SweepExactly | src/match/match_queue.cpp:723-769 | A sweep times out exactly the waiting players whose time has come, stamps them now, drops exactly the matched and timed-out entries kept long enough, and leaves every other entry as it was |
| MatchOutcomes.SweepKeepsOrder | src/match/match_queue.cpp:723-769 | Those who go on waiting keep their order |
| MatchOutcomes.EnqueueExactly | src/match/match_queue.cpp:391-430 | After the sweep: an already waiting or matched player is told so, a full queue refuses, and otherwise the player goes to the end of the queue with the request's id and time, nobody else being touched; the snapshot is marked exactly if something changed |
| MatchOutcomes.CancelExactly | src/match/match_queue.cpp:645-669 | A cancel is accepted exactly from a waiting player: one in the queue is forgotten, one whose room is being allocated only has the cancel recorded |
| MatchOutcomes.CancelLeavesOthers | src/match/match_queue.cpp:645-669 | A cancel touches nobody else beyond its sweep |
| MatchOutcomes.TakesPairsInOrder | src/match/match_queue.cpp:771-834 | Phase one takes as many pairs as there are ids and players for, from the front of the queue: the i-th group is the i-th pair under the i-th id, with the first player's request id; the rest of the queue stays |
| MatchOutcomes.TakingMarks | src/match/match_queue.cpp:808-828 | Each player taken is marked as allocating for its own group with everything else kept, and nobody else is touched |
| MatchRounds.FailedRound | src/match/match_queue.cpp:448-523 | A round that runs alone and fails every allocation loses nobody and changes no entry: a queue g1 ... gk rest becomes gk ... g1 rest, and the retry flag is set if there was a group |
| MatchRounds.FailedRoundKeepsFifo | src/match/match_queue.cpp:888-899 | The queue keeps its order through such a round if and only if the round took at most one group |
| MatchRounds.FourPlayersChangeOrder | src/match/match_queue.cpp:888-899 | Four waiting players a, b, c, d whose two allocations both fail stand in the order c, d, a, b afterwards |
| MatchRounds.FailedCommit | src/match/match_queue.cpp:870-899 | A commit without a room returns the members, in order, to the front of the queue with their queueing times unchanged and asks for a retry |
| MatchRounds.CommitStrandsPairIff | src/match/match_queue.cpp:870-899 | A commit makes the queue two or longer, where it was not, with no retry pending if and only if a room was found, exactly one of the pair had cancelled, one other player waited and no retry was pending |
| MatchRestart.RestartSimulation | src/match/match_queue.cpp:33-140 | Restoring a reachable snapshot leaves exactly the waiting players still in time (allocating ones included, cancelled ones not) queued with their times, exactly the matches within their time matched as before, everyone else idle, the queue stably sorted by time, and the final sweep with nothing to do |
| MatchRestart.StableSortIsStable | src/match/match_queue.cpp:69-73 | The restored order is sorted by queueing time and keeps the order of players with equal times |
| MatchRestart.ReportCountsEveryRow | src/match/match_queue.cpp:33-140 | The report of a restart from a snapshot counts what became of every row: unreadable lines, players queued again or too late, and players of matches kept or expired |
| MatchStore.SaveLoadRoundTrip | src/match/redis_match_queue_store.cpp:63-170 | Saving a reachable snapshot line by line and loading the lines gives back the same rows, none rejected |
| MatchStore.RunStaysHonest | src/match/match_queue.cpp:370-446 | Over any run with ids up to 64 characters and positive clocks, every entry can be encoded |
| MatchStore.StoreHoldsAStateOfTheRun | src/match/match_queue.cpp:252-293 | Through any run the store holds what it held at the beginning, the copy then on its way, or the image of one state the run has passed through: never a mixture |
| MatchStore.CrashAtAnyMoment | src/match/match_queue.cpp:33-140 | After a crash at any moment, whichever snapshot of the stored image was written, saving, loading and restoring its lines gives back one state the run was in, unless nothing was saved since the start |
| MatchStore.CrashAfterFlush | src/match/match_queue.cpp:33-140 | After a crash while the store holds the current state, as after an idle flush, the new process has exactly the restart of that very state, with no row dropped |
| MatchRedis.SavedWholeIff | src/match/redis_match_queue_store.cpp:96-123 | Once MULTI is accepted, whatever the other replies: the list becomes the new lines if and only if every command was carried out, and stays as it was otherwise |
| MatchRedis.AnswerMeansStoredIff | src/match/redis_match_queue_store.cpp:96-131 | Once MULTI is accepted: a save that answers true has stored the new list if and only if no reply was an error; one that answers false has, if and only if every command was carried out |
| MatchRedis.ErrorReplyGoesUnnoticed | src/match/redis_match_queue_store.cpp:96-131 | Concrete replies: EXEC answered with an error, the list as before, the answer true |
| MatchRedis.LostReplyHidesSave | src/match/redis_match_queue_store.cpp:96-131 | Concrete replies: EXEC carried out and its reply lost, the new list stored, the answer false |
| MatchRedis.NotGuarded | src/match/redis_match_queue_store.cpp:110-123 | If MULTI is not accepted, DEL and every RPUSH take effect one by one, and exactly those carried out show in the list |
| MatchRedis.HalfAListSaved | src/match/redis_match_queue_store.cpp:96-131 | Concrete replies: MULTI and one RPUSH answered with errors, half a list stored, the answer true |
| MatchRedis.FlushThroughRedis | src/match/match_queue.cpp:252-293 | A flush of any reachable state down to the replies, MULTI accepted: the list holds what the store is said to hold; the state is stored if and only if every command was carried out; after an answer of true it is missing if and only if a reply was an error, and the next flush writes nothing |
| MatchRedis.ListHoldsWhatIsStored | src/match/redis_match_queue_store.cpp:63-131 | Over any run, reply by reply, the list holds the image that the protocol calls stored |
| MatchRedis.CrashLeavesAState | src/match/match_queue.cpp:33-140 | After a crash at any moment of such a run the lines in the list restart to one state the run was in, unless nothing was stored since the start |
| MatchRedis.RedisMatchQueueStore.Save | src/match/redis_match_queue_store.cpp:63-131 | The loops that encode, send and read replies leave the specified list and give the specified answer, for any replies |
| MatchQueues.MatchQueue.SweepLocked | src/match/match_queue.cpp:723-769 | The two passes over the entries are the sweep of the specification, and the answer says whether anything changed |
| MatchQueues.MatchQueue.EnqueueLocked | src/match/match_queue.cpp:391-430 | The whole state and the outcome are those of the specified enqueue |
| MatchQueues.MatchQueue.CancelLocked | src/match/match_queue.cpp:645-669 | The whole state and the answer are those of the specified cancel |
| MatchQueues.MatchQueue.TakePairGroupsLocked | src/match/match_queue.cpp:771-834 | Popping, marking and naming pairs in a loop takes the specified groups off the queue |
| MatchQueues.MatchQueue.CommitGroupLocked | src/match/match_queue.cpp:836-900 | The commit of one group in passes over its members is the commit that `MatchOutcomes.CommitGivesTheRoom` and `MatchOutcomes.CommitReturns` describe, answer included |
| MatchQueues.MatchQueue.RunPairingRound | src/match/match_queue.cpp:448-523 | With too many rooms pending nobody is taken and nothing changes; else phase one, and then the groups go to the end of a busy worker's queue with the time of the round, or are committed at once in order; an empty worker queue stays empty, and the round is then committed at once |
| MatchQueues.MatchQueue.AllocationWorkerStep | src/match/match_queue.cpp:556-583 | The worker commits the oldest group with the time of its round and marks the snapshot dirty; the groups behind it stay its own |
| MatchQueues.MatchQueue.MakeSnapshotLocked | src/match/match_queue.cpp:152-211 | The three parts list exactly the queued players in order, the returning ones, and each match once |
| MatchQueues.MatchQueue.CaptureSnapshot | src/match/match_queue.cpp:252-271 | A copy is taken and the flag cleared exactly when the flag was set |
| MatchQueues.MatchQueue.RestoreFromStore | src/match/match_queue.cpp:33-140 | A store that cannot be read restores nothing and is reported; otherwise queue and report are the specified ones for whatever lines are found, and lines that hold the image of some state give the restart of that state in order |
| SnapshotCodec.RoundTrip | src/match/match_queue_store.cpp:127-239 | Decoding the line of a valid entry returns that entry |
| SnapshotCodec.ExtensionRejected | src/match/match_queue_store.cpp:157-239 | Appending anything to an accepted line makes it rejected for its trailing bytes |
| SnapshotCodec.AcceptedLinesPrefixFree | src/match/match_queue_store.cpp:157-239 | No accepted line is a proper prefix of another |
| SnapshotCodec.EncodedLineIsSelfDelimiting | src/match/match_queue_store.cpp:127-239 | Every strict prefix and every extension of an encoded line is rejected |
| SnapshotCodec.DecodeLine | src/match/match_queue_store.cpp:157-239 | Every accepted line carries an entry that satisfies the shared validation |
| SnapshotCodec.RowFitsIff | src/match/match_queue_store.cpp:81-125 | Exactly which entries are stored: ids of 1 to 64 characters, positive times, and one to eight members of a match |
| SnapshotCodec.MatchedLineLooksLikeThis | src/match/match_queue_store.cpp:127-155 | The line of a match of a and b in room r, character by character |
| SnapshotCodec.QueuedLineLooksLikeThis | src/match/match_queue_store.cpp:127-155 | The line of a queued player, character by character |
| SnapshotCodec.Encode | src/match/match_queue_store.cpp:127-155 | Appending field after field gives the line of the entry; an invalid entry is refused |
| SnapshotCodec.Decode | src/match/match_queue_store.cpp:157-239 | Reading with a moving position accepts and rejects, with the same reason, as the definition on the text does |
| RoomCore.ApplyKeepsOk | src/room/battle_room.cpp:109-411 | Every operation on a room keeps it in order: seats, hp in tens from 0 to 100, history in steps of 0 or 1, a verdict that fits the phase |
| RoomRuns.HpCountsHits | src/room/battle_room.cpp:241-258 | Over any run hp is the starting hp less 10 for each frame in which the opponent's pending attack was settled; the clamp at zero never bites |
| RoomEvents.AttacksHurtTheOther | src/room/battle_room.cpp:155-258 | Over any run, from the events alone: in each step a player loses 10 hp exactly if a frame is advanced and an attack of the other player's id was accepted since the last frame advanced, and nothing otherwise; no operation but a tick moves hp |
| RoomEvents.OnlineIsLastReport | src/room/battle_room.cpp:315-345 | Over any run, a player of a game not over is online exactly if the last presence report naming that player says so, or there was none |
| RoomEvents.AbsenceDecidesIff | src/room/battle_room.cpp:182-210 | What a tick of a running game does about absence, from the reports alone: with nobody away the game goes on; it waits, ends by disconnection with the player who is there as winner, or is aborted, exactly as the time since each player's first unanswered offline report says |
| RoomEvents.JoinedIffAsked | src/room/battle_room.cpp:109-153 | Over any run from a fresh room not over, a player has joined exactly if a join of that id came, and the game is on exactly if both did |
| RoomLife.StartedByAJoin | src/room/battle_room.cpp:142-149 | A game's start time is the time of the join that completed the pair |
| RoomLife.GivenUpIff | src/room/battle_room.cpp:182-190 | A room still waiting for players is aborted by a tick exactly if it was created 30 s ago, and otherwise not changed by it |
| RoomLife.RetryAndExpiryIff | src/room/battle_room.cpp:394-446 | Over any run, counted from the event that ended the game: its result is due to be written again exactly while it is unconfirmed and one second after the last failure, and the room expires exactly 5 minutes after the end once the result is settled |
| RoomLife.JoinAnswers | src/room/battle_room.cpp:109-127 | What a join is answered, by name, phase and membership, in the source's order of checks |
| RoomLife.SubmitAnswers | src/room/battle_room.cpp:155-174 | What an input is answered |
| RoomLife.PresenceAnswers | src/room/battle_room.cpp:315-345 | What a presence report is answered |
| RoomLife.ResultSaysTheOutcome | src/room/battle_room.cpp:427-439 | There is a result exactly once the game has a verdict, field by field |
| RoomLife.NewestShowsRoom | src/room/battle_room.cpp:413-453 | Through every run from a fresh room, the newest snapshot recorded shows the room as it is: ids, hp, joins, frame, verdict and times |
| RoomLife.FreshRoom | src/room/battle_room.cpp:8-27 | A fresh room: nobody has joined, both are online with 100 hp, no attack waits, frame 0 |
| RoomRuns.ResultNeverChanges | src/room/battle_room.cpp:427-439 | Once a room has a result no later operation of any kind changes it |
| RoomRuns.VerdictIsSound | src/room/battle_room.cpp:261-304 | There is a result exactly in the finishing and finished phases, and its winner is the one the final hp, frame and connection state call for: who alone has hp left, who has more at time-up, nobody if level, who is online after a disconnection; aborted rooms have none |
| RoomRuns.GraceIsSound | src/room/battle_room.cpp:306-384 | A disconnect loss goes only to a player reported offline 30 s before the verdict or earlier with no online report since, while the winner is online, and a tick aborts a running game only if that holds of both |
| RoomRuns.FrozenThroughAbsence | src/room/battle_room.cpp:203-210 | Over any stretch of a run in which at every moment somebody is offline, frame and both hp stay as they were |
| RoomRuns.RepeatedOfflineIsNoop | src/room/battle_room.cpp:315-345 | Reporting an offline player offline again changes nothing, the deadline included |
| RoomRuns.TickAdvancesExactly | src/room/battle_room.cpp:212-239 | With everybody online a tick advances one frame for each full 100 ms, ten at most, keeping a remainder below 100 ms, and only the end of the game cuts it short; a clock that went back changes nothing |
| RoomRuns.PauseIsNotCaughtUp | src/room/battle_room.cpp:196-210 | Over any run, the first tick with everybody back after one that found somebody away advances by the time since that tick, however long the absence was |
| RoomRuns.NeverTooFast | src/room/battle_room.cpp:212-239 | Over any run from a fresh room, with a clock that does not go back, frame times 100 never exceeds the time since the start, and frame never exceeds 600 |
| RoomHistory.AfterIsExact | src/room/battle_room.cpp:480-498 | On a history with steps of 0 or 1, the frames after a given one come once each, in order, each as last recorded |
| RoomHistory.RingAnswersForLog | src/room/battle_room.cpp:448-453 | Within the window the last 128 snapshots answer as the whole history would |
| RoomHistory.WindowRefinesLog | src/room/room_manager.cpp:319-368 | The query is complete if and only if oldest - 1 <= since <= frame, and then gives every missing frame once, each the last snapshot ever recorded for it |
| RoomHistory.WindowHasWhatIsHeld | src/room/room_manager.cpp:319-368 | Complete or not, the answer names the oldest and the newest frame held and has every held frame newer than the one asked for, once, in order and as last recorded |
| BattleRooms.BattleRoom.constructor | src/room/battle_room.cpp:8-27 | A new room object is the specified fresh room with its first snapshot recorded, and in order if there are two distinct valid players |
| BattleRooms.BattleRoom.RestoreFrom | src/room/battle_room.cpp:29-89 | A room object is rebuilt exactly when there are two non-empty, distinct player ids, with every field as specified |
| BattleRooms.BattleRoom.Join | src/room/battle_room.cpp:109-153 | State and outcome of a join are the specified ones, including the start of the game |
| BattleRooms.BattleRoom.SubmitInput | src/room/battle_room.cpp:155-180 | State and outcome of an input are the specified ones, which `RoomLife.SubmitAnswers` and `RoomEvents.AttacksHurtTheOther` describe |
| BattleRooms.BattleRoom.SetPresence | src/room/battle_room.cpp:315-345 | State and outcome of a presence report are the specified ones, which `RoomLife.PresenceAnswers` and `RoomEvents.OnlineIsLastReport` describe |
| BattleRooms.BattleRoom.ResolveReconnectGrace | src/room/battle_room.cpp:347-384 | The loop over the players decides the grace as specified |
| BattleRooms.BattleRoom.SettleAttacks | src/room/battle_room.cpp:243-258 | The in-place damage loop gives each player the other's pending attack and clears both |
| BattleRooms.BattleRoom.AdvanceOneFrame | src/room/battle_room.cpp:241-293 | One frame ends as specified: snapshot, win by hp, or timeout |
| BattleRooms.BattleRoom.Tick | src/room/battle_room.cpp:182-239 | A tick ends in the specified room, ring and all, and answers true exactly when it recorded a snapshot |
| BattleRooms.BattleRoom.PushSnapshot | src/room/battle_room.cpp:448-453 | The ring stays the last 128 snapshots of everything recorded |
| BattleRooms.BattleRoom.SnapshotsAfter | src/room/battle_room.cpp:480-498 | The loop returns the specified frames |
| RoomStore.ReachableRecordsValid | src/room/room_snapshot_reader.cpp:45-94 | The row written for a room in any state reachable from a fresh one passes validation |
| RoomStore.RowAcceptedIff | src/room/room_snapshot_reader.cpp:45-94 | Exactly which rows validation accepts |
| RoomStore.ProblemIsReal | src/room/room_snapshot_reader.cpp:45-94 | What a refusal names is wrong with the row |
| RoomStore.RowSaysWhatTheRoomIs | src/room/room_manager.cpp:480-508 | The row taken of a room has its ids, phase, frame, verdict, times, hp and joins, and the moment it was taken |
| RoomStore.RebuiltFromTheRow | src/room/battle_room.cpp:29-89 | A room is rebuilt exactly from two distinct named players, with what the row says, everybody online, no attack waiting, one snapshot, and the result due to be written at once |
| RoomStore.RestoreRoundTrip | src/room/battle_room.cpp:29-89 | A room restored from its row, recorded again, gives the same row but for its timestamp, and the same result; the restored room is in order exactly if the game did not end by disconnection |
| RoomStore.ReadBackIffNotDisconnect | src/room/room_snapshot_reader.cpp:29-43 | A row is read back as written if and only if the finish reason is not disconnect; otherwise it is refused as unknown |
| RoomStore.DisconnectVerdictIsLost | src/room/room_snapshot_reader.cpp:29-43 | Whenever a tick decides a game by disconnection, the row saying so is refused by the next start |
| RoomStore.AliceLeftLosesBobsWin | src/room/room_snapshot_reader.cpp:29-43 | A concrete run from a new room (both join, alice goes offline, a tick 30 s later): bob's decided win cannot be read back |
| RoomsTables.ColumnsMoveTogether | src/room/mysql_room_snapshot_writer.cpp:39-57 | In whatever order the columns are assigned under their timestamp tests, either the whole new row is in the table or the whole old one |
| RoomsTables.TableHoldsNewest | src/room/mysql_room_snapshot_writer.cpp:39-57 | After any saves the table holds, for each match saved, a row of the newest timestamp among them, and no other match |
| RoomsTables.SaveOrderIrrelevant | src/room/mysql_room_snapshot_writer.cpp:39-57 | With distinct timestamps for each match, the table does not depend on the order or repetition of the saves |
| RoomsTables.RefusedRowIsSettled | src/room/room_manager.cpp:102-133 | Writing a refused row back as aborted writes it off (aborted, no winner, all else kept) and so settles it if and only if the clock has reached the row's timestamp; otherwise it stays and the next start finds it again; no other row changes |
| RoomsTables.WriteBackSettles | src/room/room_manager.cpp:102-133 | The same for the whole write-back of a start, row by row |
| RoomsTables.AliceRowIsScannedAgain | src/room/room_manager.cpp:124-131 | The row at the end of that run, stamped later than the clock of the next start: refused, written back in vain, and scanned again |
| RoomsTables.RoomsTable.RejectSnapshots | src/room/room_manager.cpp:119-132 | Saving the refused rows one after the other leaves the table of those saves |
| RoomsTables.RoomsTable.Save | src/room/mysql_room_snapshot_writer.cpp:69-110 | Assigning the columns one after the other in the stored row is the specified upsert; rows without ids are refused |
| ManagerCore.CreateKeepsInverse | src/room/room_manager.cpp:139-194 | Asking again for a match gives its one room and changes nothing; creating keeps rooms and match index inverse to each other if and only if the id factory does not repeat the id of a room still there |
| ManagerCore.CreateAnswers | src/room/room_manager.cpp:139-194 | What a request to create is answered and leaves: bad ids refused, a known match gives its room, a closing manager and an empty id refuse, and otherwise the new room is a fresh one of these players |
| ManagerCore.ReapExactly | src/room/room_manager.cpp:449-461 | A lookup drops exactly the rooms over for five minutes, with index and schedule, and leaves the others as they are |
| ManagerCore.LookUpExactly | src/room/room_manager.cpp:263-304 | What is decided under the lock, by the phase of the match's room |
| ManagerCore.AbortExactly | src/room/room_manager.cpp:625-654 | A shutdown aborts exactly the games without a verdict, now, and counts each as written so |
| ManagerCore.RoomEventKeepsInverse | src/room/room_manager.cpp:196-246 | No operation on one room disturbs the two tables |
| ManagerCore.ReapKeepsInverse | src/room/room_manager.cpp:449-461 | Reaping expired rooms removes them from both tables alike |
| ManagerCore.TickedKeepsInverse | src/room/room_manager.cpp:370-410 | The locked part of a tick as a whole keeps the registry in order |
| ManagerCore.TickMovesEveryRoom | src/room/room_manager.cpp:370-407 | A tick moves every room by the room's own tick and then drops exactly those over for five minutes |
| ManagerCore.AfterAbortKeepsInverse | src/room/room_manager.cpp:625-654 | Aborting at shutdown keeps the registry in order |
| ManagerCore.RestoreRowsKeepsInverse | src/room/room_manager.cpp:53-82 | Restoring rows that, where usable, give rooms in order keeps the registry in order |
| RegistryRuns.HonestRowReadsBack | src/room/room_snapshot_reader.cpp:29-94 | A row that some room in order had is refused by a start, or gives a room in order |
| RegistryRuns.RegistryStaysInOrder | src/room/room_manager.cpp:33-654 | Through any run of creations, room events, ticks that take the rows due, reaping, shutdown aborts and crashes, each crash followed by a start from any of the rows ever written: the two tables are inverse, every room is in order and every row written passes validation |
| RegistryRuns.InOrderFromTheFirstStart | src/room/room_manager.cpp:33-654 | The same from an empty registry and an empty table, with no assumption left on the rows |
| RowSchedule.TickTakesIff | src/room/room_manager.cpp:387-405 | Over any run with crashes, a tick takes a room's row exactly if the process has none of it, the last is a second old, or the room has ended in another phase than the row says; the row taken is what the room is now, and unless the write is lost it is written |
| RowSchedule.EveryRoomHasAFreshRow | src/room/room_manager.cpp:370-480 | After every tick at `now` of any such run, each room left has a row taken later than now - 1000, and a finished or aborted room one taken in that phase |
| RowSchedule.FreshFromTheFirstStart | src/room/room_manager.cpp:370-480 | The same from an empty registry and an empty table, with no assumption left |
| RowSchedule.RunTells | src/room/room_manager.cpp:370-480 | Over any run the schedule of the process agrees with the rows it has taken |
| ManagerCore.RestoredRoomsAreFound | src/room/room_manager.cpp:53-82 | A usable row that no earlier row forestalls is found afterwards under its match id with the room it describes |
| ManagerCore.RefusedExactly | src/room/room_manager.cpp:53-133 | Exactly the rows no room can be rebuilt from are written over |
| RoomManagers.RoomManager.Create | src/room/room_manager.cpp:139-194 | Registry and outcome are those of the specified creation, a repeated room id included; with two distinct players the registry stays in order exactly if the id is not repeated |
| RoomManagers.RoomManager.Deliver | src/room/room_manager.cpp:196-246 | One room, and only it, takes the event; an unknown room changes nothing |
| RoomManagers.RoomManager.ReapExpiredLocked | src/room/room_manager.cpp:449-461 | Erasing while iterating removes exactly the expired rooms with their index and schedule entries |
| RoomManagers.RoomManager.CollectSnapshotsLocked | src/room/room_manager.cpp:387-405 | One record for each room due and no other, and the schedule afterwards; every room then has a row of the last second, an ended one a row that says so |
| RoomManagers.RoomManager.Tick | src/room/room_manager.cpp:370-410 | The whole locked part of a tick: registry after it, rooms to persist, records to write; every room left then has a row of the last second, an ended one a row that says so |
| RoomManagers.RoomManager.MarkWritten | src/room/room_manager.cpp:430-445 | After the write a room is finished only if the write was confirmed, and retried later otherwise |
| RoomManagers.RoomManager.GetResultLocked | src/room/room_manager.cpp:263-304 | What is decided under the lock: pending, no result, or ask the table |
| RoomManagers.RoomManager.GetSnapshotsSince | src/room/room_manager.cpp:319-368 | Answers from the room's ring after expired rooms are gone |
| RoomManagers.RoomManager.AbortUnfinishedGames | src/room/room_manager.cpp:625-654 | Exactly the unfinished games are aborted, marked as written, and recorded once each |
| RoomManagers.RoomManager.Restore | src/room/room_manager.cpp:33-133 | A failing reader restores nothing and is reported; otherwise usable rows become rooms unless the id or match is taken, the report counts them, and exactly the other rows are to be written back as aborted now |
| ResultProtocol.StepKeepsInv | src/room/room_manager.cpp:370-447 | Every locked section, unlocked write, lost reply, crash, insert that outlives its process, and restore keeps: finished only with a row, threads write only what their room decided, rows in crash-free runs are the rooms' own results |
| ResultProtocol.RowsNeverChange | src/room/mysql_match_result_writer.cpp:24-28 | A stored result never changes, through retries, concurrent ticks, lost replies, crashes, restores and inserts that arrive after them |
| ResultProtocol.AnswersAgree | src/room/room_manager.cpp:263-317 | Any two results ever answered for one match are equal and stay its row, though the decision under the lock and the read of the table are two steps with anything in between |
| ResultProtocol.FinishedMeansStored | src/room/room_manager.cpp:407-447 | A room is finished only if its row exists; a match in memory is answered exactly when its room is finished; without a crash the answer is the room's own result |
| Sse.PrinterAndReaderUndoEachOther | web/src/api/stream.ts:152-175 | For any events with names and data free of line breaks, heartbeats anywhere, and any cutting of the text into chunks, the client delivers exactly the printed events in order and keeps nothing back |
| Sse.CutStreamDeliversPrefix | web/src/api/stream.ts:152-175 | A connection cut after any number of characters has delivered exactly the events whose text arrived in full |
| Sse.LineEndsDoNotMatter | web/src/api/stream.ts:158-175 | The same events are delivered if the lines end with carriage return and line feed |
| Sse.DrainAppend | web/src/api/stream.ts:163-175 | Reading a text in two pieces delivers what reading it at once delivers |
| Sse.BlockParses | web/src/api/stream.ts:41-81 | The block of a printed event parses to its name, data and id; a heartbeat parses to nothing |
| Sse.AnyBlockDelivers | web/src/api/stream.ts:41-81 | Whatever lines a block has: without a data line it delivers nothing; else its data lines, split as they were, under the name of its last event line and with the last frame among its id lines; comments and other fields do not matter |
| Sse.ParseSseBlock | web/src/api/stream.ts:41-81 | The line loop collects the fields as specified |
| Sse.ReadStream | web/src/api/stream.ts:152-175 | The buffering loop delivers what the whole text contains and keeps what is unfinished |
| StreamText.EscapeReadsBack | src/gateway/stream_hub.cpp:46-80 | An escaped string, closed by a quotation mark and followed by anything, reads back as itself under the escapes of RFC 8259 |
| StreamText.EscapeHasNoControl | src/gateway/stream_hub.cpp:46-80 | Escaped text contains no raw control character |
| StreamText.EveryMessageIsPrintable | src/gateway/stream_hub.cpp:127-248 | Whatever the ids contain, no event the hub writes breaks the line structure of the stream |
| StreamJson.PrintReadsBack | src/gateway/stream_hub.cpp:46-80 | A JSON value printed with the hub's escapes and read by the grammar of RFC 8259 is itself, whatever follows it but a digit |
| StreamJson.StateReachesTheClient | src/gateway/stream_hub.cpp:127-222 | The data of a room state, read as JSON, has under each field's name what the room says, player by player, with the frame as sequence, and is named room.finished exactly if the room is over |
| StreamJson.ResetReachesTheClient | src/gateway/stream_hub.cpp:241-250 | The same for a reset, which says why and carries the room's state |
| StreamJson.ReadyReachesTheClient | src/gateway/stream_hub.cpp:194-210 | The same for session.ready, with player, room and time |
| StreamCore.SignatureTellsApart | src/gateway/stream_hub.cpp:726-739 | Two snapshots of one room have the same signature if and only if frame, phase, hp and connection states agree |
| StreamCore.PushedAgainIff | src/gateway/stream_hub.cpp:715-739 | After a state was pushed and remembered the next one is pushed if and only if frame, phase, hp or a connection differ, or either ends the game |
| StreamCore.PushedExactly | src/gateway/stream_hub.cpp:715-807 | A room's state is pushed exactly if the game is over, nothing is remembered of the room, or something else is; it is then remembered, or forgotten at the end, and no other room's is touched |
| StreamCore.RemembersTheLast | src/gateway/stream_hub.cpp:688-724 | After frames were sent to one client, the last one sent is what is remembered of the room, or nothing if the game ended with it; no other room is touched |
| StreamCore.ServedExactly | src/gateway/stream_hub.cpp:385-448 | What a tick owes one subscription: a back-fill, a first event, a push or a heartbeat, each exactly when |
| StreamCore.CommittedExactly | src/gateway/stream_hub.cpp:499-573 | What the commit of a tick makes of one subscription, field by field, from the lists that name it |
| StreamCore.SubscribedAs | src/gateway/stream_hub.cpp:258-306 | A new subscription is as asked for and pending, the others are untouched, and only its room's last state is forgotten |
| StreamCore.ClocksStartOnce | src/gateway/stream_hub.cpp:385-400 | A subscription's clocks are started by the first tick that sees it and by no other |
| StreamHubs.StreamHub.Subscribe | src/gateway/stream_hub.cpp:258-306 | A new subscription with a fresh id and a pending back-fill, and the room's last pushed state forgotten; refused while draining |
| StreamHubs.StreamHub.CollectLocked | src/gateway/stream_hub.cpp:385-448 | Phase one serves exactly: pending back-fills, live subscriptions grouped by room, those without first event, those due a heartbeat |
| StreamHubs.StreamHub.BackfillSubscription | src/gateway/stream_hub.cpp:582-713 | What is written up to the first failed write, the last pushed state afterwards, and when the attempt counts |
| StreamHubs.StreamHub.TickRoom | src/gateway/stream_hub.cpp:741-807 | Subscribers get the state exactly when it differs from the last pushed one or ends the game; who is let go |
| StreamHubs.LetGoExactly | src/gateway/stream_hub.cpp:783-807 | Of the subscribers pushed to, exactly those whose write failed are let go, and all of them at the end of the game |
| StreamHubs.StreamHub.CommitLocked | src/gateway/stream_hub.cpp:499-573 | The six lists of a tick update each subscription as specified and remove the failed ones |
| StreamTheorems.ResumeWithoutGapOrDuplicate | src/gateway/stream_hub.cpp:385-713 | Over any run: a client resuming from frame L has got nothing but resets and heartbeats, or frames L+1 to f in order, once each and as last recorded, then nothing below f and no reset; once its back-fill is no longer pending it has all of them |
| StreamTheorems.ClientReadsWhatWasWritten | web/src/api/stream.ts:152-175 | Everything the hub wrote to a connection, however cut, is delivered by the browser's reader, in order and once |
| StreamDelivery.CutConnectionDelivers | web/src/api/stream.ts:152-175 | Of what the hub wrote, cut after any number of characters and into any chunks: the ids of the room states the browser delivers are those of a first part of the states written, in order |
| StreamDelivery.ResumedBrowserCountsOn | web/src/api/stream.ts:152-175 | Over any run of the hub and on any cut connection: a browser that resumed from frame L delivers room states with the ids L+1, L+2, ... up to the room's frame f, each once and in order, and then none below f |
| StreamTheorems.EndsExactlyWithFramesOrMalformed | src/gateway/stream_hub.cpp:596-687 | For a request with a frame, an attempt whose writes succeed ends the back-fill if and only if oldest - 1 <= since < frame; otherwise one reset is sent and the request stays |
| StreamTheorems.ResetSaysWhy | src/gateway/stream_hub.cpp:644-687 | A back-fill sends exactly the missing frames in order, or one reset that says whether the id was malformed, the client is ahead, too far behind, or has all there is |
| StreamTheorems.UpToDateClientIsResetAgain | src/gateway/stream_hub.cpp:534-540 | A whole tick of a hub whose one client missed nothing sends it a reset and leaves it such that the next tick does the same; no heartbeat falls due |
| StreamTheorems.NewcomerIsResetTwice | src/gateway/stream_hub.cpp:534-540 | From any start and for any room, a legal run: the client that resumes from the room's frame is sent one reset by each of two ticks |
| StreamPending.OneResetPerTick | src/gateway/stream_hub.cpp:644-687 | Over any run, whatever else happens in between: while the room answers and has nothing for the client (its frame is the newest, or one before the window), resets sent plus resets under way grow by exactly one for each tick begun, and the back-fill stays pending |
| StreamPending.OldestHeldNeverFalls | src/room/battle_room.cpp:448-468 | Over any run the oldest frame a room holds never falls |
| StreamPending.TooLongAwayNeverLive | src/gateway/stream_hub.cpp:644-687 | A client that lacks a frame no longer held, or whose room is gone, is in every continuation sent no frame and no live state, and its back-fill stays pending as long as it stays |
| StreamFirst.ReadyIsFirstIff | src/gateway/stream_hub.cpp:479-492 | Over any run, the first message of a subscription without a back-fill is session.ready if and only if its first push sent it nothing: no answer, an unchanged state, or a failed write; otherwise it is the room's state |
| StreamFirst.FirstPushDecides | src/gateway/stream_hub.cpp:741-807 | How that push goes is decided by the room's answer, by whether the remembered state of the room is this very state in a running game, or by the write to this client, each in its own step; no other step decides it and none changes it later |
| StreamFirst.AloneReadyIsFirstIff | src/gateway/stream_hub.cpp:294-297 | If nobody else ever subscribes to the room, the remembered state cannot be in the way: session.ready is first if and only if the room did not answer or the write failed |
| StreamExamples.StateComesBeforeReady | src/gateway/stream_hub.cpp:479-492 | From any start, for any room that answers, a legal run whose client receives the state first and session.ready second |
| StreamExamples.ReadyWithoutState | src/gateway/stream_hub.cpp:294-297 | From any start, for any room whose game goes on, a legal run in which a new subscriber's room answers and it is sent session.ready and no state, because the tick reset another client of the room |
| StreamResume.StepKeepsInv | src/gateway/stream_hub.cpp:368-807 | Every locked section, room call and single write of a tick, and every subscription and room step between any two of them, keeps what a resuming client has received in order |
| StreamProtocol.LetGoIff | src/gateway/stream_hub.cpp:479-577 | In the middle of a tick, whatever else happens, a subscription comes on the list of those to be let go exactly by a failed write to it or by the end of its game |
| StreamProtocol.FillRecords | src/gateway/stream_hub.cpp:499-713 | What each step of a back-fill puts on record: lost connection, frames completed, reset and reason, or to be repeated |
| Sessions.SameRequestSameToken | src/gateway/redis_session_store.cpp:118-193 | However the commands of any number of logins are interleaved, and whichever fail, are refused or lose their replies, two that succeed for one request id return one token |
| Sessions.AnswerHasSession | src/gateway/redis_session_store.cpp:144-161 | The token of a successful login has its session if and only if it was not logged out and its HSET was not answered with an error |
| Sessions.MappingHasSession | src/gateway/redis_session_store.cpp:163-171 | The same for every mapping from the moment it is visible |
| Sessions.SessionIsItsCallers | src/gateway/redis_session_store.cpp:144-155 | Over any run, whenever a token has a session, the session holds that token with the player and client of the call it was generated for |
| Sessions.AnswerIsForItsRequest | src/gateway/redis_session_store.cpp:118-193 | The token of an answer was generated for a call with that request id, and its session, if there is one, is that call's |
| Sessions.MappingIsForItsRequest | src/gateway/redis_session_store.cpp:163-171 | The same for every mapping |
| Sessions.LosersRemoveOnlyTheirOwn | src/gateway/redis_session_store.cpp:173-187 | A login deletes no session but its own, and that one is behind no mapping |
| Sessions.EverySessionIsAccountedFor | src/gateway/redis_session_store.cpp:173-187 | Over any run, a session behind no mapping whose call is not under way is one of a call that crashed, returned nothing, or whose DEL was not carried out: no other login leaves a session over |
| Sessions.LoginAlone | src/gateway/redis_session_store.cpp:118-193 | What a login that nobody comes between returns and leaves: the mapped token if it is found at once, or once the own token has lost, with the session made in vain deleted; a new token with its mapping and session; and exactly when it returns nothing |
| Sessions.RefusedWriteGoesUnnoticed | src/gateway/redis_session_store.cpp:148-155 | A concrete call: one refused HSET, and the login succeeds without a session |
| Sessions.StepKeepsInv | src/gateway/redis_session_store.cpp:118-193 | Every command of every call keeps the invariant, and no visible mapping ever changes |
| Sessions.SessionStore.CreateSession | src/gateway/redis_session_store.cpp:118-193 | A call with nothing in between sends its commands as specified, for any replies; whose session results is `Sessions.SessionIsItsCallers` |
| Histograms.MetricsRegistry.Observe | src/common/metrics.cpp:188-234 | After any observations each series stands for exactly the values observed under its name and labels; bounds given first stay; other series are untouched |
| Histograms.MetricsRegistry.Export | src/common/metrics.cpp:335-342 | Each exported bucket is the number of observed values, negatives as zero, at or below its bound |
| Histograms.CountsTheObservations | src/common/metrics.cpp:188-234 | The values a series stands for number as many as the observations made under its name and labels, and as many at or below a bound as of those, with nothing below zero |
| Histograms.SumsThePositive | src/common/metrics.cpp:219-234 | The sum of a series grows by each positive observation of it and by nothing else |
| Histograms.LowerBound | src/common/metrics.cpp:230-233 | Binary search finds the first bound not below the value |
| Histograms.QuantileFromBuckets | bench/histogram_quantiles.py:50-69 | The loop computes the specified quantile |
| Histograms.QuantileIsInItsBucket | bench/histogram_quantiles.py:50-69 | The quantile lies in the bucket that contains its rank, between its bounds; it is infinite exactly if no bucket reaches the rank, and no number exactly if nothing was observed |
| Histograms.QuantileIsLinear | bench/histogram_quantiles.py:50-69 | Within its bucket the quantile stands at the share of the bucket's width that its rank has of the bucket's count; in an empty one at the upper bound |
| Histograms.QuantileIsMonotone | bench/histogram_quantiles.py:50-69 | A larger q never gives a smaller quantile |
| Histograms.ReportedQuantileBracketsTheTrueOne | bench/histogram_quantiles.py:50-69 | Read from the exported buckets of any values, the quantile lies between two neighbouring bounds that also enclose the values' own quantile of that rank |

## Left out

- Starting, stopping and waiting for the allocation worker. In `MatchProtocol` a hand-over is one group at a time and
  the worker's groups are committed in any order, in `MatchQueue` all groups of a round at once and first come first
  served as in the original; `MatchTheorems.WorkerIsNeverUsed` says that neither happens. Stage timers, counters and
  gauges, logging.
- The status that `GetStatus` returns; its sweep and its pairing round are steps of the protocol.
- Null stores, null allocators and null clients, and loops' defensive branches for cases the invariants rule out
  (a queued player without an entry, a matched player without members).
- The merge interval of `Tick` in the match queue: a flush may come at any time.
- `request_id` and the queueing time of matched players, which the snapshot does not hold.
- In the runs of `MatchProtocol` a save is one step that stores the whole image or nothing; `MatchRedis` shows that its
  commands do so once MULTI is accepted, and what they do otherwise.
- SQL timestamps: the results table keeps whole milliseconds here, seconds in MySQL.
- Rooms inside the manager are values; `BattleRoom` shows the same operations as updates in place. Aliasing
  between a manager and its room objects is not modelled.
- Counting of snapshot writes, phase counts and other read-only summaries of the manager.
- Presence reports of the hub to the room service, `CloseAllWithEvent`, request ids for logs.
- A room service that restarts while a gateway serves its rooms, so that frames go back.
- A connection that fails one write and takes a later one: a sink, once broken, stays broken.
- TextDecoder, and a carriage return and its line feed in different chunks; ids beyond 2^53.
- White space between JSON tokens, fractions and exponents, and surrogate pairs in the JSON reader; the hub writes none
  of them.
- Expiry of sessions and mappings; the reconnect loop of the client; `decodeEnvelope`.
- Rendering of numbers and labels in the metrics text, order of the exposition, floating-point rounding.
- Members of a counter or gauge, and `parse_samples`, which only split text.
