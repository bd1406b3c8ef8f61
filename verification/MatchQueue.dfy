/** The match queue as the process holds it: a deque, a table of entries and a few flags.

    Each method below is one critical section of the queue's mutex (`Locked` in the original's names),
    proved against the section's function in MatchCore. `inFlight` is ghost: the groups whose room
    is being allocated outside the lock. */
module MatchQueues {
  import opened Wrappers
  import opened Seqs
  import opened MatchCore
  import opened MatchSnapshot
  import opened MatchRestart
  import opened MatchRounds
  import opened MatchStore
  import Codec = SnapshotCodec

  function WithMatch(es: map<string, Entry>, ps: seq<string>, g: Group, room: string, now: int): map<string, Entry> {
    map p | p in es :: if p in ps then MatchedInto(es[p], g, room, now) else es[p]
  }

  function WithReturned(es: map<string, Entry>, ps: seq<string>): map<string, Entry> {
    map p | p in es :: if p in ps then Returned(es[p]) else es[p]
  }

  /** What a start reports: whether the store could be read, how many rows it gave, and what became of them. */
  datatype StartReport = StartReport(loadFailed: bool, scanned: nat, rows: Report)

  class MatchQueue {
    const limits: Limits
    var queue: seq<string>
    var entries: map<string, Entry>
    var retryPairing: bool
    var shuttingDown: bool
    var snapshotDirty: bool
    var snapshotDirtySince: int
    var allocationQueue: seq<(Group, int)>      // groups handed to the worker, and the time of their round
    var workerRunning: bool
    ghost var inFlight: InFlight

    ghost function Model(): Core
      reads this
    {
      Core(queue, entries, retryPairing)
    }

    ghost predicate Valid()
      reads this
    {
      Inv(Model(), inFlight)
    }

    /** What the worker has to do yet is being allocated, each group once. */
    ghost predicate WorkerOk()
      reads this`inFlight, this`allocationQueue
    {
      AllTracked(inFlight, GroupsIn(allocationQueue))
    }

    constructor (matchTimeout: int, resultTtl: int, maxQueue: int)
      ensures Valid() && WorkerOk() && Model() == EmptyCore && inFlight == map[]
      ensures allocationQueue == [] && !workerRunning
      ensures !shuttingDown && !snapshotDirty
      ensures limits.matchTimeout == if matchTimeout > 0 then matchTimeout else 30000
      ensures limits.resultTtl == if resultTtl > 0 then resultTtl else 120000
      ensures limits.maxQueue == if maxQueue > 0 then maxQueue else 1000
    {
      limits := LimitValues(if matchTimeout > 0 then matchTimeout else 30000,
                            if resultTtl > 0 then resultTtl else 120000,
                            if maxQueue > 0 then maxQueue else 1000);
      queue, entries, retryPairing := [], map[], false;
      shuttingDown, snapshotDirty, snapshotDirtySince := false, false, 0;
      allocationQueue, workerRunning := [], false;
      inFlight := map[];
    }

    // ---------------------------------------------------------------- sweeping

    method RemoveFromQueueLocked(p: string)
      modifies this`queue
      ensures queue == RemoveFirst(old(queue), p)
    {
      var i := 0;
      while i < |queue| && queue[i] != p
        invariant 0 <= i <= |queue| && queue == old(queue)
        invariant p !in queue[..i]
      {
        i := i + 1;
      }
      FirstAt(queue, p, i);
      if i < |queue| {
        queue := queue[..i] + queue[i + 1..];
      }
    }

    /** The players of the queue to be timed out, in queue order. */
    method CollectOverdue(now: int) returns (overdue: seq<string>)
      requires QueueOk(Model())
      ensures NoDup(overdue)
      ensures Elems(overdue) == OverdueSet(Model(), now, limits)
    {
      overdue := [];
      var i := 0;
      while i < |queue|
        invariant 0 <= i <= |queue|
        invariant NoDup(overdue)
        invariant forall p :: p in overdue <==> p in queue[..i] && p in entries && Overdue(entries[p], now, limits)
      {
        var p := queue[i];
        assert p in queue && p !in queue[..i];
        if p !in entries || !entries[p].status.Queued? || Overdue(entries[p], now, limits) {
          overdue := overdue + [p];
        }
        i := i + 1;
      }
      assert queue[..i] == queue;
    }

    method MarkTimedOut(overdue: seq<string>, now: int)
      requires NoDup(queue) && NoDup(overdue)
      modifies this`queue, this`entries
      ensures queue == Without(old(queue), Elems(overdue))
      ensures entries == map p | p in old(entries) ::
        if p in overdue then old(entries)[p].(status := TimedOut, stamp := now) else old(entries)[p]
    {
      var i := 0;
      WithoutKeepsAll(queue, Elems(overdue[..i]));
      while i < |overdue|
        invariant 0 <= i <= |overdue|
        invariant queue == Without(old(queue), Elems(overdue[..i]))
        invariant entries == map p | p in old(entries) ::
          if p in overdue[..i] then old(entries)[p].(status := TimedOut, stamp := now) else old(entries)[p]
      {
        var p := overdue[i];
        if p in entries {
          entries := entries[p := entries[p].(status := TimedOut, stamp := now)];
        }
        ghost var gone := Elems(overdue[..i]);
        WithoutNoDup(old(queue), gone);
        RemoveFirstIsWithout(queue, p);
        WithoutTwice(old(queue), gone, {p});
        assert gone + {p} == Elems(overdue[..i + 1]);
        RemoveFromQueueLocked(p);
        i := i + 1;
      }
      assert overdue[..i] == overdue;
    }

    method EraseExpired(now: int) returns (changed: bool)
      modifies this`entries
      ensures entries == map p | p in old(entries) && !Expired(old(entries)[p], now, limits) :: old(entries)[p]
      ensures changed <==> entries != old(entries)
    {
      changed := false;
      var todo := entries.Keys;
      while todo != {}
        invariant todo <= old(entries).Keys
        invariant entries == map p | p in old(entries) && (p in todo || !Expired(old(entries)[p], now, limits))
                               :: old(entries)[p]
        invariant changed <==> exists p :: p in old(entries) && p !in entries
      {
        var p :| p in todo;
        if Expired(entries[p], now, limits) {
          entries := entries - {p};
          changed := true;
        }
        todo := todo - {p};
      }
    }

    method SweepLocked(now: int) returns (changed: bool)
      requires QueueOk(Model())
      modifies this`queue, this`entries
      ensures old(Valid()) ==> Valid()
      ensures Model() == Sweep(old(Model()), now, limits)
      ensures changed <==> Model() != old(Model())
    {
      ghost var s := Model();
      if Valid() {
        SweepKeepsInv(s, inFlight, now, limits);
      }
      var overdue := CollectOverdue(now);
      MarkTimedOut(overdue, now);
      ghost var marked := entries;
      var erased := EraseExpired(now);
      SweepInTwoPasses(s, overdue, marked, entries, now, limits);
      changed := overdue != [] || erased;
    }

    // ---------------------------------------------------------------- requests

    method BeginShutdown()
      modifies this`shuttingDown
      ensures shuttingDown
    {
      shuttingDown := true;
    }

    /** The checks before anything is touched; `None` lets the request through. */
    method EnqueueGate(p: string, requestId: string) returns (refused: Option<EnqueueOutcome>)
      ensures refused == if !ValidId(p) || !ValidId(requestId) then Some(InvalidArgument)
                         else if shuttingDown then Some(ShuttingDown) else None
    {
      if |p| == 0 || |p| > MAX_ID_LENGTH || |requestId| == 0 || |requestId| > MAX_ID_LENGTH {
        return Some(InvalidArgument);
      }
      if shuttingDown {
        return Some(ShuttingDown);
      }
      return None;
    }

    method EnqueueLocked(p: string, requestId: string, now: int) returns (outcome: EnqueueOutcome, changed: bool)
      requires Valid()
      modifies this`queue, this`entries
      ensures Valid()
      ensures Enqueued(Model(), outcome, changed) == EnqueueStep(old(Model()), p, requestId, now, limits)
    {
      EnqueueKeepsInv(Model(), inFlight, p, requestId, now, limits);
      outcome := Accepted;
      changed := SweepLocked(now);
      if p in entries {
        if entries[p].status.Queued? || entries[p].status.Matched? {
          outcome := AlreadyQueued;
        } else if |queue| >= limits.maxQueue {
          outcome := QueueFull;
        } else {
          entries := entries[p := entries[p].(status := Queued, requestId := requestId, queuedAt := now, stamp := now,
                                              allocating := false, cancelRequested := false)];
          queue := queue + [p];
          changed := true;
        }
      } else if |queue| >= limits.maxQueue {
        outcome := QueueFull;
      } else {
        entries := entries[p := FreshEntry(requestId, now)];
        queue := queue + [p];
        changed := true;
      }
    }

    method CancelLocked(p: string, now: int) returns (removed: bool, changed: bool)
      requires Valid()
      modifies this`queue, this`entries
      ensures Valid()
      ensures Cancelled(Model(), removed, changed) == CancelStep(old(Model()), p, now, limits)
    {
      CancelKeepsInv(Model(), inFlight, p, now, limits);
      removed := false;
      changed := SweepLocked(now);
      if p in entries {
        if entries[p].allocating {
          entries := entries[p := entries[p].(cancelRequested := true)];
          removed, changed := true, true;
        } else if entries[p].status.Queued? {
          entries := entries - {p};
          RemoveFirstIsWithout(queue, p);
          RemoveFromQueueLocked(p);
          removed, changed := true, true;
        }
      }
    }

    /** The lazy retry's test: whoever finds the flag set clears it and runs the round. */
    method TakeRetryFlag() returns (had: bool)
      requires Valid()
      modifies this`retryPairing
      ensures Valid() && had == old(retryPairing)
      ensures Model() == old(Model()).(retry := false)
    {
      ghost var s := Model();
      had := retryPairing;
      retryPairing := false;
      forall p | p in entries ensures EntryOk(p, Model(), inFlight) {
        assert EntryOk(p, s, inFlight);
      }
      forall m | m in inFlight ensures Held(m, inFlight[m], Model()) {
        assert Held(m, inFlight[m], s);
      }
    }

    // ---------------------------------------------------------------- pairing

    /** Take two players from the front, skipping anyone who is not queued (there is nobody). */
    method PopGroup() returns (group: seq<string>)
      requires Valid() && |queue| >= 2
      modifies this`queue
      ensures group == old(queue)[..2] && queue == old(queue)[2..]
    {
      group := [];
      while |group| < 2 && queue != []
        invariant |group| <= 2 && old(queue) == group + queue
        decreases |queue|
      {
        var p := queue[0];
        assert p in old(queue);
        assert old(queue) == group + [p] + queue[1..];
        queue := queue[1..];
        if p in entries && entries[p].status.Queued? {
          group := group + [p];
        }
      }
    }

    method MarkGroup(group: seq<string>, id: string)
      requires forall p :: p in group ==> p in entries
      modifies this`entries
      ensures entries == map p | p in old(entries) ::
        if p in group then MarkAllocating(old(entries)[p], id, group) else old(entries)[p]
    {
      var i := 0;
      while i < |group|
        invariant 0 <= i <= |group|
        invariant entries == map p | p in old(entries) ::
          if p in group[..i] then MarkAllocating(old(entries)[p], id, group) else old(entries)[p]
      {
        assert group[i] in group;
        entries := entries[group[i] := MarkAllocating(entries[group[i]], id, group)];
        i := i + 1;
      }
      assert group[..i] == group;
    }

    method TakeGroup(id: string) returns (g: Group)
      requires Valid() && |queue| >= 2 && id != "" && Unused(id, Model(), inFlight)
      modifies this`queue, this`entries, this`inFlight
      ensures Valid()
      ensures old(queue)[0] in old(entries) && old(queue)[1] in old(entries)
      ensures Model() == TakeOne(old(Model()), id) && g == GroupOf(old(Model()), id)
      ensures inFlight == old(inFlight)[id := g.members]
    {
      TakeOneKeepsInv(Model(), inFlight, id);
      assert queue[0] in queue && queue[1] in queue;
      var group := PopGroup();
      g := Group(id, group, entries[group[0]].requestId);
      MarkGroup(group, id);
      inFlight := inFlight[id := group];
    }

    /** Phase one; `ids` are the answers the match id factory will give. */
    method TakePairGroupsLocked(ids: seq<string>) returns (groups: seq<Group>)
      requires Valid() && FreshIds(ids, Model(), inFlight)
      modifies this`queue, this`entries, this`inFlight
      ensures Valid()
      ensures Model() == TakeAll(old(Model()), ids).core
      ensures groups == TakeAll(old(Model()), ids).groups
      ensures inFlight == Tracked(old(inFlight), groups)
    {
      groups := [];
      var left := ids;
      while |queue| >= 2
        invariant Valid() && FreshIds(left, Model(), inFlight)
        invariant inFlight == Tracked(old(inFlight), groups)
        invariant TakeAll(old(Model()), ids).core == TakeAll(Model(), left).core
        invariant TakeAll(old(Model()), ids).groups == groups + TakeAll(Model(), left).groups
        decreases |queue|
      {
        if left == [] || left[0] == "" {
          // The factory has no id: the two players stay in front of the queue.
          break;
        }
        ghost var s := Model();
        FreshIdsTail(s, inFlight, left);
        TakeAllStep(s, left);
        var g := TakeGroup(left[0]);
        TrackedAppend(old(inFlight), groups, g);
        Shift(groups, g, TakeAll(Model(), left[1..]).groups);
        groups := groups + [g];
        left := left[1..];
      }
      assert TakeAll(Model(), left).groups == [];
    }

    /** Who of the group has cancelled meanwhile, and who has not; a missing entry is neither. */
    method Classify(g: Group) returns (cancelled: seq<string>, requeue: seq<string>)
      ensures Elems(cancelled) == CancelledOf(Model(), g)
      ensures requeue == Without(g.members, CancelledOf(Model(), g) + MissingOf(Model(), g))
    {
      cancelled, requeue := [], [];
      ghost var out := CancelledOf(Model(), g) + MissingOf(Model(), g);
      var i := 0;
      while i < |g.members|
        invariant 0 <= i <= |g.members|
        invariant forall p :: p in cancelled <==> p in g.members[..i] && p in entries && entries[p].cancelRequested
        invariant requeue == Without(g.members[..i], out)
      {
        var p := g.members[i];
        assert g.members[..i + 1] == g.members[..i] + [p];
        WithoutConcat(g.members[..i], [p], out);
        if p in entries {
          if entries[p].cancelRequested {
            cancelled := cancelled + [p];
          } else {
            requeue := requeue + [p];
          }
        }
        i := i + 1;
      }
      assert g.members[..i] == g.members;
    }

    method RecordMatch(g: Group, players: seq<string>, room: string, now: int)
      modifies this`entries
      ensures entries == WithMatch(old(entries), players, g, room, now)
    {
      var i := 0;
      while i < |players|
        invariant 0 <= i <= |players|
        invariant entries == WithMatch(old(entries), players[..i], g, room, now)
      {
        if players[i] in entries {
          entries := entries[players[i] := MatchedInto(entries[players[i]], g, room, now)];
        }
        i := i + 1;
      }
      assert players[..i] == players;
    }

    method EraseAll(players: seq<string>)
      modifies this`entries
      ensures entries == old(entries) - Elems(players)
    {
      var i := 0;
      while i < |players|
        invariant 0 <= i <= |players|
        invariant entries == old(entries) - Elems(players[..i])
      {
        entries := entries - {players[i]};
        i := i + 1;
      }
      assert players[..i] == players;
    }

    /** Back to the front of the queue, last one first, so that they keep their order. */
    method PushFront(players: seq<string>)
      requires forall p :: p in players ==> p in entries
      modifies this`queue, this`entries
      ensures queue == players + old(queue)
      ensures entries == WithReturned(old(entries), players)
    {
      var i := |players|;
      while i > 0
        invariant 0 <= i <= |players|
        invariant queue == players[i..] + old(queue)
        invariant entries == WithReturned(old(entries), players[i..])
      {
        i := i - 1;
        var p := players[i];
        assert p in players && players[i..] == [p] + players[i + 1..];
        entries := entries[p := Returned(entries[p])];
        queue := [p] + queue;
      }
      assert players[0..] == players;
    }

    /** Phase three for one group. */
    method CommitGroupLocked(g: Group, room: string, now: int)
      requires Valid() && g.matchId in inFlight && inFlight[g.matchId] == g.members
      modifies this`queue, this`entries, this`retryPairing, this`inFlight
      ensures Valid()
      ensures Model() == Commit(old(Model()), g, room, now)
      ensures inFlight == old(inFlight) - {g.matchId}
    {
      ghost var s := Model();
      CommitKeepsInv(s, inFlight, g, room, now);
      inFlight := inFlight - {g.matchId};
      var cancelled, requeue := Classify(g);
      CommitInPasses(s, g, cancelled, requeue, room, now);
      if room != "" && cancelled == [] {
        RecordMatch(g, requeue, room, now);
        return;
      }
      if room == "" {
        retryPairing := true;
      }
      EraseAll(cancelled);
      PushFront(requeue);
    }

    /** Phases two and three in the requesting thread; `rooms` are the allocator's answers. */
    method CommitInline(groups: seq<Group>, rooms: seq<string>, now: int)
      requires Valid() && AllTracked(inFlight, groups + GroupsIn(allocationQueue)) && |rooms| == |groups|
      modifies this`queue, this`entries, this`retryPairing, this`inFlight
      ensures Valid() && WorkerOk()
      ensures Model() == CommitAll(old(Model()), groups, rooms, now)
    {
      ghost var handed := GroupsIn(allocationQueue);
      var left, answers := groups, rooms;
      while left != []
        invariant Valid() && AllTracked(inFlight, left + handed) && |answers| == |left|
        invariant CommitAll(Model(), left, answers, now) == CommitAll(old(Model()), groups, rooms, now)
        decreases |left|
      {
        ghost var s, was := Model(), inFlight;
        assert (left + handed)[0] == left[0] && (left + handed)[1..] == left[1..] + handed;
        CommitGroupLocked(left[0], answers[0], now);
        OthersStayTracked(was, left + handed);
        CommitAllStep(s, left, answers, now);
        left, answers := left[1..], answers[1..];
      }
      assert left + handed == handed;
    }

    method HandOffToWorker(groups: seq<Group>, now: int)
      requires AllTracked(inFlight, groups + GroupsIn(allocationQueue))
      modifies this`allocationQueue
      ensures allocationQueue == old(allocationQueue) + WithTime(groups, now) && WorkerOk()
    {
      ghost var before := allocationQueue;
      var i := 0;
      while i < |groups|
        invariant 0 <= i <= |groups| && allocationQueue == before + WithTime(groups[..i], now)
      {
        assert groups[..i + 1] == groups[..i] + [groups[i]];
        WithTimeMore(groups[..i], groups[i], now);
        allocationQueue := allocationQueue + [(groups[i], now)];
        i := i + 1;
      }
      assert groups[..i] == groups;
      HandedTracked(inFlight, groups, before, now);
    }

    /** One pairing round with nobody else between its sections. Too many rooms pending: nobody is taken.
        A busy worker, that is one with groups waiting: the groups go to the end of its queue. Otherwise
        they are committed at once. */
    method RunPairingRound(ids: seq<string>, rooms: seq<string>, now: int) returns (paired: bool)
      requires Valid() && WorkerOk() && FreshIds(ids, Model(), inFlight)
      requires |rooms| == |TakeAll(Model(), ids).groups|
      modifies this`queue, this`entries, this`retryPairing, this`inFlight, this`allocationQueue
      ensures Valid() && WorkerOk()
      ensures var taken := TakeAll(old(Model()), ids);
        var busy := old(workerRunning) && old(allocationQueue) != [];
        if |old(allocationQueue)| >= MAX_PENDING_ALLOCATIONS then
          !paired && Model() == old(Model()) && allocationQueue == old(allocationQueue)
        else
          && (paired <==> taken.groups != [])
          && Model() == (if busy then taken.core else CommitAll(taken.core, taken.groups, rooms, now))
          && allocationQueue == old(allocationQueue) + if busy then WithTime(taken.groups, now) else []
      // A worker with nothing to do is given nothing: the round is neither refused nor handed off.
      ensures old(allocationQueue) == [] ==>
        var taken := TakeAll(old(Model()), ids);
        && allocationQueue == []
        && (paired <==> taken.groups != [])
        && Model() == CommitAll(taken.core, taken.groups, rooms, now)
    {
      if |allocationQueue| >= MAX_PENDING_ALLOCATIONS {
        return false;
      }
      ghost var before, fl := Model(), inFlight;
      var groups := TakePairGroupsLocked(ids);
      GroupsTracked(before, fl, ids);
      TakenBesideHanded(before, fl, ids, GroupsIn(allocationQueue));
      if groups == [] {
        return false;
      }
      if workerRunning && allocationQueue != [] {
        HandOffToWorker(groups, now);
        return true;
      }
      CommitInline(groups, rooms, now);
      return true;
    }

    /** One turn of the worker's loop: the oldest group is allocated, committed and marked; `room` is the
        allocator's answer. */
    method AllocationWorkerStep(room: string, now: int)
      requires Valid() && WorkerOk() && allocationQueue != []
      modifies this`queue, this`entries, this`retryPairing, this`inFlight, this`allocationQueue
      modifies this`snapshotDirty, this`snapshotDirtySince
      ensures Valid() && WorkerOk() && allocationQueue == old(allocationQueue)[1..]
      ensures var (g, at) := old(allocationQueue)[0]; Model() == Commit(old(Model()), g, room, at)
      ensures snapshotDirty
    {
      var (g, at) := allocationQueue[0];
      ghost var fl, handed := inFlight, GroupsIn(allocationQueue);
      assert handed[0] == g && handed[1..] == GroupsIn(allocationQueue[1..]);
      allocationQueue := allocationQueue[1..];
      CommitGroupLocked(g, room, at);
      OthersStayTracked(fl, handed);
      MarkSnapshotDirty(now);
    }

    // ---------------------------------------------------------------- snapshots

    method MarkSnapshotDirty(now: int)
      modifies this`snapshotDirty, this`snapshotDirtySince
      ensures snapshotDirty
      ensures snapshotDirtySince == if old(snapshotDirty) then old(snapshotDirtySince) else now
    {
      if snapshotDirty {
        return;
      }
      snapshotDirty := true;
      snapshotDirtySince := now;
    }

    method QueuedPart() returns (rows: seq<QueuedAt>)
      requires Valid()
      ensures rows == Stamped(queue, entries)
    {
      rows := [];
      var i := 0;
      while i < |queue|
        invariant 0 <= i <= |queue| && |rows| == i
        invariant forall k :: 0 <= k < i ==> rows[k] == (queue[k], entries[queue[k]].queuedAt)
      {
        var p := queue[i];
        assert p in queue;
        if p in entries && entries[p].status.Queued? {
          rows := rows + [(p, entries[p].queuedAt)];
        }
        i := i + 1;
      }
    }

    /** Players being allocated go back to the queue on restart, unless their cancel is on record. */
    method ReturningPart() returns (rows: seq<QueuedAt>)
      ensures ListsReturning(rows, Model())
    {
      rows := [];
      var todo := entries.Keys;
      while todo != {}
        invariant todo <= entries.Keys
        invariant forall i, j :: 0 <= i < j < |rows| ==> rows[i].0 != rows[j].0
        invariant forall x :: x in rows ==>
          x.0 in entries && x.0 !in todo && Returning(entries[x.0]) && x.1 == entries[x.0].queuedAt
        invariant forall p :: p in entries && p !in todo && Returning(entries[p]) ==> (p, entries[p].queuedAt) in rows
      {
        var p :| p in todo;
        if entries[p].status.Queued? && entries[p].allocating && !entries[p].cancelRequested {
          assert forall i :: 0 <= i < |rows| ==> rows[i] in rows;
          rows := rows + [(p, entries[p].queuedAt)];
        }
        todo := todo - {p};
      }
    }

    /** One row for each match, although every player of it has an entry. */
    method MatchedPart() returns (rows: seq<Match>)
      requires Valid()
      ensures ListsMatches(rows, Model())
    {
      rows := [];
      var written: seq<string> := [];
      var todo := entries.Keys;
      while todo != {}
        invariant todo <= entries.Keys && |written| == |rows|
        invariant forall i :: 0 <= i < |rows| ==> written[i] == rows[i].matchId
        invariant forall i, j :: 0 <= i < j < |rows| ==> rows[i].matchId != rows[j].matchId
        invariant forall m :: m in rows ==> Recorded(m, Model())
        invariant forall p :: p in entries && p !in todo && entries[p].status.Matched? ==> MatchOf(entries[p]) in rows
      {
        var p :| p in todo;
        if entries[p].status.Matched? {
          RecordOf(Model(), inFlight, p);
          if entries[p].matchId in written {
            var i :| 0 <= i < |written| && written[i] == entries[p].matchId;
            assert rows[i] in rows;
            SameMatch(Model(), inFlight, rows[i], p);
          } else {
            rows := rows + [MatchOf(entries[p])];
            written := written + [entries[p].matchId];
          }
        }
        todo := todo - {p};
      }
    }

    method MakeSnapshotLocked() returns (snap: Snapshot)
      requires Valid()
      ensures IsSnapshotOf(snap, Model())
    {
      var queued := QueuedPart();
      var returning := ReturningPart();
      var matched := MatchedPart();
      snap := Snapshot(queued + returning, matched);
      assert snap.queued[..|queue|] == queued && snap.queued[|queue|..] == returning;
    }

    /** The locked part of a flush: take a copy and clear the flag, if there is anything to write. */
    method CaptureSnapshot() returns (copy: Option<Snapshot>)
      requires Valid()
      modifies this`snapshotDirty, this`snapshotDirtySince
      ensures copy.Some? <==> old(snapshotDirty)
      ensures copy.Some? ==> IsSnapshotOf(copy.value, Model())
      ensures !snapshotDirty
    {
      if !snapshotDirty {
        return None;
      }
      var snap := MakeSnapshotLocked();
      snapshotDirty := false;
      snapshotDirtySince := 0;
      return Some(snap);
    }

    // ---------------------------------------------------------------- restart

    method RestoreQueued(rows: seq<QueuedAt>, start: Report, now: int) returns (report: Report)
      modifies this`queue, this`entries
      ensures Rebuilt(Model(), report) == AdmitAllQueued(Rebuilt(old(Model()), start), rows, now, limits)
    {
      report := start;
      var left := rows;
      while left != []
        invariant AdmitAllQueued(Rebuilt(Model(), report), left, now, limits)
          == AdmitAllQueued(Rebuilt(old(Model()), start), rows, now, limits)
        invariant retryPairing == old(retryPairing)
        decreases |left|
      {
        var x := left[0];
        if x.0 in entries {
          report := report.(dropped := report.dropped + 1);
        } else if now - x.1 >= limits.matchTimeout {
          report := report.(timedOut := report.timedOut + 1);
        } else {
          entries := entries[x.0 := FreshEntry("", x.1)];
          queue := queue + [x.0];
          report := report.(queued := report.queued + 1);
        }
        left := left[1..];
      }
    }

    method AnyTracked(players: seq<string>) returns (seen: bool)
      ensures seen <==> exists p :: p in players && p in entries
    {
      var i := 0;
      while i < |players|
        invariant 0 <= i <= |players|
        invariant forall p :: p in players[..i] ==> p !in entries
      {
        if players[i] in entries {
          return true;
        }
        i := i + 1;
      }
      assert players[..i] == players;
      return false;
    }

    method AddMatch(m: Match)
      requires forall p :: p in m.members ==> p !in entries
      modifies this`entries
      ensures entries == old(entries) + Entered(m.members, m)
    {
      var i := 0;
      while i < |m.members|
        invariant 0 <= i <= |m.members|
        invariant entries == old(entries) + Entered(m.members[..i], m)
      {
        MembersMore(old(entries), m, i);
        if m.members[i] !in entries {
          entries := entries[m.members[i] := RestoredMatch(m)];
        }
        i := i + 1;
      }
      assert m.members[..i] == m.members;
    }

    method RestoreMatches(rows: seq<Match>, start: Report, now: int) returns (report: Report)
      modifies this`entries
      ensures Rebuilt(Model(), report) == AdmitAllMatches(Rebuilt(old(Model()), start), rows, now, limits)
    {
      report := start;
      var left := rows;
      while left != []
        invariant AdmitAllMatches(Rebuilt(Model(), report), left, now, limits)
          == AdmitAllMatches(Rebuilt(old(Model()), start), rows, now, limits)
        invariant retryPairing == old(retryPairing) && queue == old(queue)
        decreases |left|
      {
        var m := left[0];
        if now - m.stamp >= limits.resultTtl {
          report := report.(expiredResults := report.expiredResults + |m.members|);
        } else {
          var seen := AnyTracked(m.members);
          if seen {
            report := report.(dropped := report.dropped + 1);
          } else {
            AddMatch(m);
            report := report.(matched := report.matched + |m.members|);
          }
        }
        left := left[1..];
      }
    }

    /** The rows by kind, and how many have a problem. */
    method SplitRows(lines: seq<string>) returns (loaded: Loaded)
      ensures loaded == Load(lines)
    {
      loaded := Loaded(Snapshot([], []), 0);
      var i := 0;
      while i < |lines|
        invariant 0 <= i <= |lines| && loaded == Load(lines[..i])
      {
        assert lines[..i + 1] == lines[..i] + [lines[i]];
        LoadMore(lines[..i], lines[i]);
        LoadOne(lines[i]);
        match Codec.DecodeLine(lines[i]) {
          case Bad(_) =>
            loaded := loaded.(bad := loaded.bad + 1);
          case Good(QueuedRow(p, t)) =>
            loaded := loaded.(snap := loaded.snap.(queued := loaded.snap.queued + [(p, t as int)]));
          case Good(MatchedRow(m, r, t, ps)) =>
            loaded := loaded.(snap := loaded.snap.(matched := loaded.snap.matched + [Match(m, r, ps, t as int)]));
        }
        i := i + 1;
      }
      assert lines[..i] == lines;
    }

    /** A start: `lines` is what the store holds, or nothing if it cannot be read; then nothing is
        restored. If the store holds a state an earlier process was in, that state comes back. */
    method RestoreFromStore(lines: Option<seq<string>>, now: int) returns (report: StartReport)
      requires Model() == EmptyCore && inFlight == map[]
      modifies this`queue, this`entries
      ensures lines.None? ==> Valid() && Model() == EmptyCore && report == StartReport(true, 0, Report(0, 0, 0, 0, 0))
      ensures lines.Some? ==>
        && !report.loadFailed && report.scanned == |lines.value|
        && Rebuilt(Model(), report.rows) == Restarted(lines.value, now, limits)
      ensures forall s, fl :: lines.Some? && Inv(s, fl) && Storable(s) && LinesOf(lines.value, ImageOf(s)) ==>
        Valid() && RestartedFrom(Model(), s, now, limits) && report.rows.dropped == 0
    {
      if lines.None? {
        return StartReport(true, 0, Report(0, 0, 0, 0, 0));
      }
      var loaded := SplitRows(lines.value);
      var rows := RestoreRows(loaded.snap, loaded.bad, now);
      forall s, fl | Inv(s, fl) && Storable(s) && LinesOf(lines.value, ImageOf(s))
        ensures Valid() && RestartedFrom(Model(), s, now, limits) && rows.dropped == 0
      {
        StoreGivesBack(lines.value, s, fl, now, limits);
      }
      return StartReport(false, |lines.value|, rows);
    }

    method RestoreRows(snap: Snapshot, bad: nat, now: int) returns (report: Report)
      requires Model() == EmptyCore
      modifies this`queue, this`entries
      ensures Rebuilt(Model(), report) == MatchSnapshot.Restore(EmptyCore, snap, bad, now, limits)
    {
      report := RestoreQueued(StableSort(snap.queued), Report(0, 0, bad, 0, 0), now);
      report := RestoreMatches(snap.matched, report, now);
      AdmittedQueueOk(snap, bad, now, limits);
      var _ := SweepLocked(now);
    }
  }

  /** Whatever the rows: players enter the queue once, as waiting, and matches never touch them. */
  lemma AdmittedQueueOk(snap: Snapshot, bad: nat, now: int, lim: Limits)
    ensures var r1 := AdmitAllQueued(Rebuilt(EmptyCore, Report(0, 0, bad, 0, 0)), StableSort(snap.queued), now, lim);
      QueueOk(AdmitAllMatches(r1, snap.matched, now, lim).core)
  {
    var r0 := Rebuilt(EmptyCore, Report(0, 0, bad, 0, 0));
    AdmitQueuedKeepsQueue(r0, StableSort(snap.queued), now, lim);
    AdmitMatchesKeepsQueue(AdmitAllQueued(r0, StableSort(snap.queued), now, lim), snap.matched, now, lim);
  }

  lemma {:induction false} AdmitQueuedKeepsQueue(r: Rebuilt, xs: seq<QueuedAt>, now: int, lim: Limits)
    requires QueueOk(r.core)
    ensures QueueOk(AdmitAllQueued(r, xs, now, lim).core)
    decreases |xs|
  {
    if xs != [] {
      var next := AdmitQueued(r, xs[0], now, lim);
      assert QueueOk(next.core);
      AdmitQueuedKeepsQueue(next, xs[1..], now, lim);
    }
  }

  lemma {:induction false} AdmitMatchesKeepsQueue(r: Rebuilt, ms: seq<Match>, now: int, lim: Limits)
    requires QueueOk(r.core)
    ensures QueueOk(AdmitAllMatches(r, ms, now, lim).core)
    decreases |ms|
  {
    if ms != [] {
      var next := AdmitMatch(r, ms[0], now, lim);
      assert QueueOk(next.core);
      AdmitMatchesKeepsQueue(next, ms[1..], now, lim);
    }
  }

  lemma {:induction false} FirstAt(q: seq<string>, p: string, i: nat)
    requires i <= |q| && p !in q[..i] && (i < |q| ==> q[i] == p)
    ensures RemoveFirst(q, p) == if i < |q| then q[..i] + q[i + 1..] else q
  {
    if i > 0 {
      assert q[0] in q[..i] && q[1..][..i - 1] == q[..i][1..];
      FirstAt(q[1..], p, i - 1);
      assert i < |q| ==> q[1..][i..] == q[i + 1..];
    }
  }

  lemma RecordOf(s: Core, fl: InFlight, p: string)
    requires Inv(s, fl) && p in s.entries && s.entries[p].status.Matched?
    ensures Recorded(MatchOf(s.entries[p]), s)
  {
    assert EntryOk(p, s, fl);
  }

  lemma SameMatch(s: Core, fl: InFlight, m: Match, p: string)
    requires Inv(s, fl) && p in s.entries && s.entries[p].status.Matched?
    requires Recorded(m, s) && m.matchId == s.entries[p].matchId
    ensures MatchOf(s.entries[p]) == m
  {
    assert EntryOk(p, s, fl);
    assert EntryOk(m.members[0], s, fl);
  }

  /** Marking the overdue players and then erasing the expired results is one sweep, and it changes
      the state exactly when there was somebody to mark or something to erase. */
  lemma SweepInTwoPasses(s: Core, overdue: seq<string>, marked: map<string, Entry>, left: map<string, Entry>,
                         now: int, lim: Limits)
    requires QueueOk(s) && Elems(overdue) == OverdueSet(s, now, lim)
    requires marked == map p | p in s.entries ::
      if p in overdue then s.entries[p].(status := TimedOut, stamp := now) else s.entries[p]
    requires left == map p | p in marked && !Expired(marked[p], now, lim) :: marked[p]
    ensures left == Sweep(s, now, lim).entries
    ensures overdue != [] || left != marked <==> Sweep(s, now, lim) != s
  {
    assert marked == map p | p in s.entries :: TimeOutOne(p, s, now, lim);
    if overdue == [] {
      assert OverdueSet(s, now, lim) == {};
      WithoutKeepsAll(s.queue, {});
      assert marked == s.entries;
    } else {
      assert overdue[0] in OverdueSet(s, now, lim);
      assert overdue[0] in s.queue && overdue[0] !in Sweep(s, now, lim).queue;
    }
  }

  lemma CommitInPasses(s: Core, g: Group, cancelled: seq<string>, requeue: seq<string>, room: string, now: int)
    requires Elems(cancelled) == CancelledOf(s, g)
    requires requeue == Without(g.members, CancelledOf(s, g) + MissingOf(s, g))
    ensures Viable(s, g, room) <==> room != "" && cancelled == []
    ensures Viable(s, g, room) ==>
      Commit(s, g, room, now) == s.(entries := WithMatch(s.entries, requeue, g, room, now))
    ensures !Viable(s, g, room) ==>
      Commit(s, g, room, now)
        == Core(requeue + s.queue, WithReturned(s.entries - Elems(cancelled), requeue), s.retry || room == "")
    ensures forall p :: p in requeue ==> p in s.entries && p !in cancelled
  {
    if cancelled != [] {
      assert cancelled[0] in CancelledOf(s, g);
    }
    assert forall p :: p in s.entries && p in g.members ==> (p in requeue <==> p !in CancelledOf(s, g));
  }

  lemma CommitAllStep(s: Core, gs: seq<Group>, rooms: seq<string>, now: int)
    requires gs != [] && |rooms| == |gs|
    ensures CommitAll(s, gs, rooms, now) == CommitAll(Commit(s, gs[0], rooms[0], now), gs[1..], rooms[1..], now)
  {
  }

  lemma OthersStayTracked(fl: InFlight, gs: seq<Group>)
    requires gs != [] && AllTracked(fl, gs)
    ensures AllTracked(fl - {gs[0].matchId}, gs[1..])
  {
  }

  lemma Shift(gs: seq<Group>, g: Group, rest: seq<Group>)
    ensures gs + ([g] + rest) == (gs + [g]) + rest
  {
  }

  lemma TakeAllStep(s: Core, ids: seq<string>)
    requires (forall p :: p in s.queue ==> p in s.entries) && |s.queue| >= 2 && ids != [] && ids[0] != ""
    ensures TakeAll(s, ids).core == TakeAll(TakeOne(s, ids[0]), ids[1..]).core
    ensures TakeAll(s, ids).groups == [GroupOf(s, ids[0])] + TakeAll(TakeOne(s, ids[0]), ids[1..]).groups
  {
  }

  /** Every group is being allocated, and no two of them share a match id. */
  ghost predicate AllTracked(fl: InFlight, gs: seq<Group>) {
    && (forall i :: 0 <= i < |gs| ==> gs[i].matchId in fl && fl[gs[i].matchId] == gs[i].members)
    && DistinctIds(gs)
  }

  function GroupsIn(tasks: seq<(Group, int)>): (r: seq<Group>)
    ensures |r| == |tasks| && forall i :: 0 <= i < |r| ==> r[i] == tasks[i].0
  {
    seq(|tasks|, i requires 0 <= i < |tasks| => tasks[i].0)
  }

  function WithTime(gs: seq<Group>, now: int): (r: seq<(Group, int)>)
    ensures |r| == |gs| && forall i :: 0 <= i < |r| ==> r[i] == (gs[i], now)
  {
    seq(|gs|, i requires 0 <= i < |gs| => (gs[i], now))
  }

  lemma WithTimeMore(gs: seq<Group>, g: Group, now: int)
    ensures WithTime(gs + [g], now) == WithTime(gs, now) + [(g, now)]
  {
  }

  /** The order in which groups are listed does not matter. */
  lemma HandedTracked(fl: InFlight, gs: seq<Group>, tasks: seq<(Group, int)>, now: int)
    requires AllTracked(fl, gs + GroupsIn(tasks))
    ensures AllTracked(fl, GroupsIn(tasks + WithTime(gs, now)))
  {
    var all, more := gs + GroupsIn(tasks), GroupsIn(tasks + WithTime(gs, now));
    forall i | 0 <= i < |more|
      ensures more[i] == all[if i < |tasks| then |gs| + i else i - |tasks|]
    {
    }
  }

  /** The groups of a new round share no match id with those the worker has. */
  lemma TakenBesideHanded(s: Core, fl: InFlight, ids: seq<string>, handed: seq<Group>)
    requires Inv(s, fl) && FreshIds(ids, s, fl) && AllTracked(fl, handed)
    ensures var gs := TakeAll(s, ids).groups; AllTracked(Tracked(fl, gs), gs + handed)
  {
    var gs := TakeAll(s, ids).groups;
    TakenIdsFresh(s, fl, ids);
    TrackedContents(fl, gs);
  }

  lemma GroupsTracked(s: Core, fl: InFlight, ids: seq<string>)
    requires Inv(s, fl) && FreshIds(ids, s, fl)
    ensures AllTracked(Tracked(fl, TakeAll(s, ids).groups), TakeAll(s, ids).groups)
  {
    var gs := TakeAll(s, ids).groups;
    TakenIdsFresh(s, fl, ids);
    TrackedContents(fl, gs);
  }

  lemma {:induction false} TrackedAppend(fl: InFlight, gs: seq<Group>, g: Group)
    ensures Tracked(fl, gs + [g]) == Tracked(fl, gs)[g.matchId := g.members]
    decreases |gs|
  {
    if gs == [] {
      assert gs + [g] == [g] && [g][1..] == [];
    } else {
      assert (gs + [g])[1..] == gs[1..] + [g];
      TrackedAppend(fl[gs[0].matchId := gs[0].members], gs[1..], g);
    }
  }

  function Entered(ps: seq<string>, m: Match): map<string, Entry> {
    map p | p in ps :: RestoredMatch(m)
  }

  /** One more member: a player listed twice is entered once. */
  lemma MembersMore(entries: map<string, Entry>, m: Match, i: nat)
    requires i < |m.members|
    ensures var before := entries + Entered(m.members[..i], m);
      var after := entries + Entered(m.members[..i + 1], m);
      && after == before[m.members[i] := RestoredMatch(m)]
      && (m.members[i] in before && m.members[i] !in entries ==> after == before)
  {
    assert m.members[..i + 1] == m.members[..i] + [m.members[i]];
  }
}
