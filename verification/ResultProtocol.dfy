/** Ticks, result writes outside the lock, lost replies, crashes and restores, over one results table. */
module ResultProtocol {
  import opened Wrappers
  import opened RoomCore
  import opened RoomRuns
  import opened ManagerCore

  /** A thread inside `RoomManager::Tick`, after the locked collection of rooms to persist. */
  datatype Thread =
    | Deciding(todo: seq<string>, now: int)                             // about to look at todo[0] again
    | Writing(todo: seq<string>, now: int, id: string, rec: Result)     // the insert is under way, unlocked
    | Marking(todo: seq<string>, now: int, id: string, matchId: string, ok: bool)  // the insert returned

  datatype Sys = Sys(
    manager: Manager,
    table: map<string, Result>,
    threads: map<nat, Thread>,
    born: map<string, string>,   // match of every room id this process has used
    crashed: bool,               // some process has crashed before
    late: set<Result>,           // inserts of crashed processes that may still arrive
    asking: map<nat, string>,    // requests for a result, past the lock and about to read the table
    given: set<(string, Result)>)   // what any of them ever answered

  datatype SysEvent =
    | CreateEv(matchId: string, ids: seq<string>, newId: string, now: int)
    | RoomEv(id: string, ev: Event)           // a join, an input or a presence report
    | TickEv(t: nat, now: int, todo: seq<string>)
    | DecideEv(t: nat)
    | WriteEv(t: nat, applied: bool, reply: bool)
    | MarkEv(t: nat)
    | ReapEv(now: int)
    | AskEv(q: nat, matchId: string, now: int)  // the locked part of a request for a result
    | AnswerEv(q: nat, ok: bool)              // its read of the table, without the lock
    | AbortEv(now: int)
    | CrashEv
    | LateWriteEv(rec: Result)                // an insert sent before a crash takes effect, now or again
    | RestoreEv(rooms: map<string, Room>)

  predicate ByClient(op: Op) {
    op.JoinOp? || op.SubmitOp? || op.PresenceOp?
  }

  /** Rows of unfinished rooms, each match once: what a start may find to restore. */
  ghost predicate RestorableRooms(rooms: map<string, Room>) {
    && (forall id :: id in rooms ==>
          && RoomOk(rooms[id])
          && rooms[id].roomId == id
          && !rooms[id].phase.Finished?
          && !rooms[id].phase.Aborted?)
    && (forall a, b :: a in rooms && b in rooms && rooms[a].matchId == rooms[b].matchId ==> a == b)
  }

  function IndexOf(rooms: map<string, Room>): map<string, string>
    requires forall a, b :: a in rooms && b in rooms && rooms[a].matchId == rooms[b].matchId ==> a == b
  {
    map id | id in rooms :: rooms[id].matchId := id
  }

  ghost predicate Enabled(s: Sys, ev: SysEvent) {
    match ev
    case CreateEv(m, ids, newId, _) =>
      // Ids are never reused: the room id is new, and so is the match unless it has its room already.
      && newId !in s.born && newId !in s.manager.rooms
      && |ids| == 2 && ids[0] != ids[1]
      && (m in s.manager.index || (m !in s.born.Values && m !in s.table))
    case RoomEv(id, e) => id in s.manager.rooms && ByClient(e.op)
    case TickEv(t, now, todo) => t !in s.threads
    case DecideEv(t) => t in s.threads && s.threads[t].Deciding?
    case WriteEv(t, applied, reply) => t in s.threads && s.threads[t].Writing? && (reply ==> applied)
    case MarkEv(t) => t in s.threads && s.threads[t].Marking?
    case ReapEv(_) => true
    case AskEv(q, _, _) => q !in s.asking
    case AnswerEv(q, _) => q in s.asking
    case AbortEv(_) => true
    case CrashEv => true
    case LateWriteEv(rec) => rec in s.late
    case RestoreEv(rooms) =>
      s.crashed && s.manager.rooms == map[] && s.manager.index == map[] && s.threads == map[] && RestorableRooms(rooms)
  }

  function GoOn(threads: map<nat, Thread>, t: nat, todo: seq<string>, now: int): map<nat, Thread> {
    if todo == [] then threads - {t} else threads[t := Deciding(todo, now)]
  }

  /** The inserts that have been sent and not answered. */
  function UnderWay(threads: map<nat, Thread>): set<Result> {
    set t | t in threads && threads[t].Writing? :: threads[t].rec
  }

  ghost function Step(s: Sys, ev: SysEvent): Sys
    requires SysInv(s) && Enabled(s, ev)
  {
    match ev
    case CreateEv(m, ids, newId, now) =>
      var (manager, outcome) := CreateRoom(s.manager, m, ids, newId, now);
      s.(manager := manager,
         born := if newId in manager.rooms then s.born[newId := m] else s.born)
    case RoomEv(id, e) => s.(manager := WithRoom(s.manager, id, Apply(s.manager.rooms[id], e)))
    case TickEv(t, now, todo) =>
      s.(manager := LockedTick(s.manager, now), threads := GoOn(s.threads, t, todo, now))
    case DecideEv(t) =>
      var th := s.threads[t];
      if th.todo == [] then s.(threads := s.threads - {t})
      else
        var id := th.todo[0];
        if id in s.manager.rooms && s.manager.rooms[id].phase.Finishing?
        then s.(threads := s.threads[t := Writing(th.todo[1..], th.now, id, ResultOf(s.manager.rooms[id]).value)])
        else s.(threads := GoOn(s.threads, t, th.todo[1..], th.now))
    case WriteEv(t, applied, reply) =>
      var th := s.threads[t];
      s.(table := if applied then InsertIfAbsent(s.table, th.rec) else s.table,
         threads := s.threads[t := Marking(th.todo, th.now, th.id, th.rec.matchId, reply)])
    case MarkEv(t) =>
      var th := s.threads[t];
      var mark := Event(th.now, if th.ok then PersistedOp else PersistFailedOp);
      s.(manager := if th.id in s.manager.rooms
                    then WithRoom(s.manager, th.id, Apply(s.manager.rooms[th.id], mark)) else s.manager,
         threads := GoOn(s.threads, t, th.todo, th.now))
    case ReapEv(now) => s.(manager := Reap(s.manager, now))
    case AskEv(q, m, now) =>
      if !ValidId(m) then s
      else
        var manager := Reap(s.manager, now);
        s.(manager := manager,
           asking := if LookUp(manager, m).AskTable? then s.asking[q := m] else s.asking)
    case AnswerEv(q, ok) =>
      var m := s.asking[q];
      s.(asking := s.asking - {q}, given := if ok && m in s.table then s.given + {(m, s.table[m])} else s.given)
    case AbortEv(now) => s.(manager := AfterAbort(s.manager, now))
    case CrashEv =>
      s.(manager := Manager(map[], map[], map[], false), threads := map[], born := map[], crashed := true,
         asking := map[], late := s.late + UnderWay(s.threads))
    case LateWriteEv(rec) => s.(table := InsertIfAbsent(s.table, rec))
    case RestoreEv(rooms) =>
      s.(manager := s.manager.(rooms := rooms, index := IndexOf(rooms)),
         born := map id | id in rooms :: rooms[id].matchId)
  }

  /** INSERT ... ON DUPLICATE KEY UPDATE match_id = match_id: the first row stays. */
  function InsertIfAbsent(table: map<string, Result>, rec: Result): map<string, Result> {
    if rec.matchId in table then table else table[rec.matchId := rec]
  }

  // ------------------------------------------------------------------ the invariant

  ghost predicate ThreadOk(th: Thread, born: map<string, string>, table: map<string, Result>) {
    match th
    case Deciding(_, _) => true
    case Writing(_, _, id, rec) => id in born && born[id] == rec.matchId
    case Marking(_, _, id, m, ok) => id in born && born[id] == m && (ok ==> m in table)
  }

  ghost predicate ThreadsOk(threads: map<nat, Thread>, born: map<string, string>, table: map<string, Result>) {
    forall t :: t in threads ==> ThreadOk(threads[t], born, table)
  }

  ghost predicate RoomsBorn(rooms: map<string, Room>, born: map<string, string>) {
    forall id :: id in rooms ==> id in born && born[id] == rooms[id].matchId
  }

  ghost predicate FinishedStored(rooms: map<string, Room>, table: map<string, Result>) {
    forall id :: id in rooms && rooms[id].phase.Finished? ==> rooms[id].matchId in table
  }

  /** Whatever is stored for a room's match is the room's own result. */
  ghost predicate RowsAreOwn(rooms: map<string, Room>, table: map<string, Result>) {
    forall id :: id in rooms && rooms[id].matchId in table ==> ResultOf(rooms[id]) == Some(table[rooms[id].matchId])
  }

  /** So is whatever is being written for it. */
  ghost predicate WritesAreOwn(rooms: map<string, Room>, threads: map<nat, Thread>) {
    forall t, id :: t in threads && id in rooms && threads[t].Writing? ==>
      (rooms[id].matchId == threads[t].rec.matchId ==> ResultOf(rooms[id]) == Some(threads[t].rec))
  }

  /** Whatever was answered is the row of its match. */
  predicate GivenAreRows(given: set<(string, Result)>, table: map<string, Result>) {
    forall x :: x in given ==> x.0 in table && table[x.0] == x.1
  }

  ghost predicate SysInv(s: Sys) {
    && Inverse(s.manager)
    && AllTwoSeats(s.manager.rooms)
    && RoomsBorn(s.manager.rooms, s.born)
    && FinishedStored(s.manager.rooms, s.table)
    && ThreadsOk(s.threads, s.born, s.table)
    && GivenAreRows(s.given, s.table)
    && (!s.crashed ==>
          RowsAreOwn(s.manager.rooms, s.table) && WritesAreOwn(s.manager.rooms, s.threads) && s.late == {})
  }

  /** A first process over any table. */
  ghost predicate Start(s: Sys) {
    && s.manager.rooms == map[] && s.manager.index == map[] && s.threads == map[] && s.born == map[]
    && s.late == {} && s.given == {}
  }

  lemma StartKeepsInv(s: Sys)
    requires Start(s)
    ensures SysInv(s)
  {
  }

  // ------------------------------------------------------------------ every step keeps it

  /** How the rooms may change in one step that creates none: each is kept, with its ids, or dropped;
      a decided room keeps its result, and only a mark makes a room finished. */
  ghost predicate RoomsFollow(before: map<string, Room>, after: map<string, Room>) {
    forall id :: id in after ==>
      && id in before
      && after[id].matchId == before[id].matchId
      && (Over(before[id].phase) ==> ResultOf(after[id]) == ResultOf(before[id]))
      && (after[id].phase.Finished? ==> before[id].phase.Finished?)
  }

  lemma RoomsFollowKeepInv(s: Sys, manager: Manager)
    requires SysInv(s) && Inverse(manager) && RoomsFollow(s.manager.rooms, manager.rooms)
    ensures SysInv(s.(manager := manager))
  {
    if !s.crashed {
      FollowersKeepOwn(s.manager.rooms, manager.rooms, s.table, s.threads);
    }
  }

  lemma FollowersKeepOwn(before: map<string, Room>, after: map<string, Room>, table: map<string, Result>,
                         threads: map<nat, Thread>)
    requires RoomsFollow(before, after)
    requires RowsAreOwn(before, table) && WritesAreOwn(before, threads)
    ensures RowsAreOwn(after, table) && WritesAreOwn(after, threads)
  {
    forall id | id in after && after[id].matchId in table
      ensures ResultOf(after[id]) == Some(table[after[id].matchId])
    {
      assert ResultOf(before[id]).Some?;
    }
    forall t, id | t in threads && id in after && threads[t].Writing? && after[id].matchId == threads[t].rec.matchId
      ensures ResultOf(after[id]) == Some(threads[t].rec)
    {
      assert ResultOf(before[id]).Some?;
    }
  }

  lemma ClientStep(r: Room, ev: Event)
    requires RoomOk(r) && ByClient(ev.op)
    ensures var q := Apply(r, ev);
      (Over(r.phase) ==> q == r) && !(q.phase.Finished? && !r.phase.Finished?)
  {
  }

  lemma UnmarkedStep(r: Room, ev: Event)
    requires RoomOk(r) && !ev.op.PersistedOp?
    ensures var q := Apply(r, ev);
      && (Over(r.phase) ==> ResultOf(q) == ResultOf(r))
      && (q.phase.Finished? ==> r.phase.Finished?)
  {
    if ev.op.TickOp? {
      TickNeverFinishes(r, ev.now);
    } else if ByClient(ev.op) {
      ClientStep(r, ev);
    }
  }

  lemma {:induction false} AdvanceManyNeverFinishes(r: Room, n: nat, now: int)
    requires TwoSeats(r) && !r.phase.Finished?
    ensures !AdvanceMany(r, n, now).phase.Finished?
    decreases n
  {
    if n > 0 && r.phase.Playing? {
      AdvanceManyNeverFinishes(Advance(Stepped(r), now), n - 1, now);
    }
  }

  lemma TickNeverFinishes(r: Room, now: int)
    requires TwoSeats(r)
    ensures Tick(r, now).phase.Finished? ==> r.phase.Finished?
    ensures Over(r.phase) ==> Tick(r, now) == r
  {
    if r.phase.Playing? && !SomeoneOffline(r) && now >= r.lastTick {
      AdvanceManyNeverFinishes(r.(lastTick := CatchUpBase(r, now)), FramesTaken(r, now), now);
    }
  }

  lemma ApplyAllFollows(m: Manager, ev: Event)
    requires Inverse(m) && AllTwoSeats(m.rooms) && !ev.op.PersistedOp?
    ensures RoomsFollow(m.rooms, ApplyAll(m.rooms, ev))
  {
    var after := ApplyAll(m.rooms, ev);
    forall id | id in after
      ensures after[id].matchId == m.rooms[id].matchId
      ensures Over(m.rooms[id].phase) ==> ResultOf(after[id]) == ResultOf(m.rooms[id])
      ensures after[id].phase.Finished? ==> m.rooms[id].phase.Finished?
    {
      ApplyKeepsIds(m.rooms[id], ev);
      UnmarkedStep(m.rooms[id], ev);
    }
  }

  lemma ReapFollows(m: Manager, now: int)
    ensures RoomsFollow(m.rooms, Reap(m, now).rooms)
  {
  }

  /** A thread that only moves on, or leaves, holds no write. */
  lemma GoOnKeepsInv(s: Sys, t: nat, todo: seq<string>, now: int)
    requires SysInv(s)
    ensures SysInv(s.(threads := GoOn(s.threads, t, todo, now)))
    ensures SysInv(s.(threads := s.threads - {t}))
  {
  }

  lemma TickKeepsInv(s: Sys, t: nat, now: int, todo: seq<string>)
    requires SysInv(s) && Enabled(s, TickEv(t, now, todo))
    ensures SysInv(Step(s, TickEv(t, now, todo)))
  {
    TickedKeepsInverse(s.manager, now);
    ApplyAllFollows(s.manager, Event(now, TickOp));
    RoomsFollowKeepInv(s, Ticked(s.manager, now));
    var s1 := s.(manager := Ticked(s.manager, now));
    RoomsFollowKeepInv(s1, LockedTick(s.manager, now));
    GoOnKeepsInv(s.(manager := LockedTick(s.manager, now)), t, todo, now);
  }

  /** One room replaced by a later state of it. */
  lemma ReplaceKeepsInv(s: Sys, id: string, q: Room)
    requires SysInv(s) && id in s.manager.rooms && RoomOk(q)
    requires q.roomId == id && q.matchId == s.manager.rooms[id].matchId
    requires Over(s.manager.rooms[id].phase) ==> ResultOf(q) == ResultOf(s.manager.rooms[id])
    requires q.phase.Finished? ==> s.manager.rooms[id].phase.Finished? || q.matchId in s.table
    ensures SysInv(s.(manager := WithRoom(s.manager, id, q)))
  {
    WithRoomKeepsInverse(s.manager, id, q);
    ReplaceKeepsTables(s.manager.rooms, id, q, s.born, s.table);
    if !s.crashed {
      ReplaceKeepsOwn(s.manager.rooms, id, q, s.table, s.threads);
    }
  }

  lemma ReplaceKeepsTables(rooms: map<string, Room>, id: string, q: Room, born: map<string, string>,
                           table: map<string, Result>)
    requires AllTwoSeats(rooms) && RoomsBorn(rooms, born) && FinishedStored(rooms, table)
    requires id in rooms && TwoSeats(q) && q.matchId == rooms[id].matchId
    requires q.phase.Finished? ==> rooms[id].phase.Finished? || q.matchId in table
    ensures AllTwoSeats(rooms[id := q]) && RoomsBorn(rooms[id := q], born) && FinishedStored(rooms[id := q], table)
  {
  }

  lemma ReplaceKeepsOwn(rooms: map<string, Room>, id: string, q: Room, table: map<string, Result>,
                        threads: map<nat, Thread>)
    requires id in rooms && q.matchId == rooms[id].matchId
    requires Over(rooms[id].phase) ==> ResultOf(q) == ResultOf(rooms[id])
    requires RowsAreOwn(rooms, table) && WritesAreOwn(rooms, threads)
    ensures RowsAreOwn(rooms[id := q], table) && WritesAreOwn(rooms[id := q], threads)
  {
    if q.matchId in table {
      assert ResultOf(rooms[id]).Some?;
    }
    forall t | t in threads && threads[t].Writing? && q.matchId == threads[t].rec.matchId
      ensures ResultOf(q) == Some(threads[t].rec)
    {
      assert ResultOf(rooms[id]).Some?;
    }
  }

  lemma RoomEvKeepsInv(s: Sys, id: string, e: Event)
    requires SysInv(s) && Enabled(s, RoomEv(id, e))
    ensures SysInv(Step(s, RoomEv(id, e)))
  {
    var r := s.manager.rooms[id];
    var q := Apply(r, e);
    ApplyKeepsOk(r, e);
    ApplyKeepsIds(r, e);
    UnmarkedStep(r, e);
    ReplaceKeepsInv(s, id, q);
  }

  lemma CreateKeepsInv(s: Sys, m: string, ids: seq<string>, newId: string, now: int)
    requires SysInv(s) && Enabled(s, CreateEv(m, ids, newId, now))
    ensures SysInv(Step(s, CreateEv(m, ids, newId, now)))
  {
    CreateKeepsInverse(s.manager, m, ids, newId, now);
    CreateAddsOneRoom(s.manager, m, ids, newId, now);
    var manager := CreateRoom(s.manager, m, ids, newId, now).0;
    if newId in manager.rooms {
      AddKeepsInv(s, manager, newId, manager.rooms[newId]);
    }
  }

  lemma CreateAddsOneRoom(manager: Manager, m: string, ids: seq<string>, newId: string, now: int)
    requires Inverse(manager) && newId !in manager.rooms && |ids| == 2 && ids[0] != ids[1]
    ensures var q := CreateRoom(manager, m, ids, newId, now).0;
      if newId in q.rooms
      then q.rooms == manager.rooms[newId := q.rooms[newId]] && q.rooms[newId].phase.Created?
           && q.rooms[newId].matchId == m && m !in manager.index
      else q.rooms == manager.rooms
  {
  }

  lemma AddKeepsInv(s: Sys, manager: Manager, newId: string, r: Room)
    requires SysInv(s) && Inverse(manager) && newId !in s.manager.rooms && newId !in s.born
    requires manager.rooms == s.manager.rooms[newId := r] && r.phase.Created?
    requires r.matchId !in s.born.Values && r.matchId !in s.table
    ensures SysInv(s.(manager := manager, born := s.born[newId := r.matchId]))
  {
    assert RoomOk(manager.rooms[newId]);
    NewMatchKeepsThreads(s, r.matchId, newId);
    AddKeepsTables(s.manager.rooms, newId, r, s.born, s.table, s.threads);
  }

  lemma AddKeepsTables(rooms: map<string, Room>, id: string, r: Room, born: map<string, string>,
                       table: map<string, Result>, threads: map<nat, Thread>)
    requires AllTwoSeats(rooms) && RoomsBorn(rooms, born) && FinishedStored(rooms, table)
    requires id !in rooms && TwoSeats(r) && r.phase.Created? && r.matchId !in table
    requires forall t :: t in threads && threads[t].Writing? ==> threads[t].rec.matchId != r.matchId
    ensures AllTwoSeats(rooms[id := r]) && FinishedStored(rooms[id := r], table)
    ensures RoomsBorn(rooms[id := r], born[id := r.matchId])
    ensures RowsAreOwn(rooms, table) ==> RowsAreOwn(rooms[id := r], table)
    ensures WritesAreOwn(rooms, threads) ==> WritesAreOwn(rooms[id := r], threads)
  {
  }

  lemma NewMatchKeepsThreads(s: Sys, m: string, newId: string)
    requires SysInv(s) && newId !in s.born && m !in s.born.Values
    ensures ThreadsOk(s.threads, s.born[newId := m], s.table)
    ensures forall t :: t in s.threads && s.threads[t].Writing? ==> s.threads[t].rec.matchId != m
  {
    forall t | t in s.threads
      ensures ThreadOk(s.threads[t], s.born[newId := m], s.table)
      ensures s.threads[t].Writing? ==> s.threads[t].rec.matchId != m
    {
      assert ThreadOk(s.threads[t], s.born, s.table);
    }
  }

  lemma DecideKeepsInv(s: Sys, t: nat)
    requires SysInv(s) && Enabled(s, DecideEv(t))
    ensures SysInv(Step(s, DecideEv(t)))
  {
    var th := s.threads[t];
    if th.todo == [] {
      GoOnKeepsInv(s, t, [], th.now);
    } else {
      var id := th.todo[0];
      if id in s.manager.rooms && s.manager.rooms[id].phase.Finishing? {
        var threads := s.threads[t := Writing(th.todo[1..], th.now, id, ResultOf(s.manager.rooms[id]).value)];
        assert ThreadsOk(threads, s.born, s.table);
        forall u, other | u in threads && other in s.manager.rooms && threads[u].Writing?
          ensures s.manager.rooms[other].matchId == threads[u].rec.matchId && !s.crashed
            ==> ResultOf(s.manager.rooms[other]) == Some(threads[u].rec)
        {
          if u == t && s.manager.rooms[other].matchId == threads[u].rec.matchId {
            assert other == id;
          }
        }
      } else {
        GoOnKeepsInv(s, t, th.todo[1..], th.now);
      }
    }
  }

  lemma WriteKeepsInv(s: Sys, t: nat, applied: bool, reply: bool)
    requires SysInv(s) && Enabled(s, WriteEv(t, applied, reply))
    ensures SysInv(Step(s, WriteEv(t, applied, reply)))
  {
    var th := s.threads[t];
    assert ThreadOk(th, s.born, s.table);
    var table := if applied then InsertIfAbsent(s.table, th.rec) else s.table;
    var threads := s.threads[t := Marking(th.todo, th.now, th.id, th.rec.matchId, reply)];
    forall u | u in threads ensures ThreadOk(threads[u], s.born, table) {
      assert u != t ==> ThreadOk(s.threads[u], s.born, s.table);
    }
    if !s.crashed {
      forall id | id in s.manager.rooms && s.manager.rooms[id].matchId in table
        ensures ResultOf(s.manager.rooms[id]) == Some(table[s.manager.rooms[id].matchId])
      {
        assert t in s.threads && s.threads[t].Writing?;
      }
    }
  }

  lemma MarkedRoom(r: Room, ev: Event)
    requires RoomOk(r) && (ev.op.PersistedOp? || ev.op.PersistFailedOp?)
    ensures var q := Apply(r, ev);
      && RoomOk(q) && q.matchId == r.matchId && q.roomId == r.roomId
      && ResultOf(q) == ResultOf(r)
      && (q.phase.Finished? ==> r.phase.Finished? || ev.op.PersistedOp?)
  {
  }

  lemma MarkKeepsInv(s: Sys, t: nat)
    requires SysInv(s) && Enabled(s, MarkEv(t))
    ensures SysInv(Step(s, MarkEv(t)))
  {
    var th := s.threads[t];
    assert ThreadOk(th, s.born, s.table);
    if th.id in s.manager.rooms {
      var mark := Event(th.now, if th.ok then PersistedOp else PersistFailedOp);
      var q := Apply(s.manager.rooms[th.id], mark);
      MarkedRoom(s.manager.rooms[th.id], mark);
      ReplaceKeepsInv(s, th.id, q);
      GoOnKeepsInv(s.(manager := WithRoom(s.manager, th.id, q)), t, th.todo, th.now);
    } else {
      GoOnKeepsInv(s, t, th.todo, th.now);
    }
  }

  lemma RestoredIndex(rooms: map<string, Room>)
    requires RestorableRooms(rooms)
    ensures forall id :: id in rooms ==> rooms[id].matchId in IndexOf(rooms) && IndexOf(rooms)[rooms[id].matchId] == id
    ensures forall k :: k in IndexOf(rooms) ==> IndexOf(rooms)[k] in rooms && rooms[IndexOf(rooms)[k]].matchId == k
  {
  }

  lemma RestoredTables(m: Manager, rooms: map<string, Room>)
    requires RestorableRooms(rooms)
    ensures Inverse(m.(rooms := rooms, index := IndexOf(rooms))) && AllTwoSeats(rooms)
  {
    RestoredIndex(rooms);
  }

  lemma RestoreKeepsInv(s: Sys, rooms: map<string, Room>)
    requires SysInv(s) && Enabled(s, RestoreEv(rooms))
    ensures SysInv(Step(s, RestoreEv(rooms)))
  {
    RestoredTables(s.manager, rooms);
  }

  lemma LateWriteKeepsInv(s: Sys, rec: Result)
    requires SysInv(s) && Enabled(s, LateWriteEv(rec))
    ensures SysInv(Step(s, LateWriteEv(rec)))
  {
    forall t | t in s.threads ensures ThreadOk(s.threads[t], s.born, InsertIfAbsent(s.table, rec)) {
      assert ThreadOk(s.threads[t], s.born, s.table);
    }
  }

  lemma StepKeepsInv(s: Sys, ev: SysEvent)
    requires SysInv(s) && Enabled(s, ev)
    ensures SysInv(Step(s, ev))
  {
    match ev
    case CreateEv(m, ids, newId, now) => CreateKeepsInv(s, m, ids, newId, now);
    case RoomEv(id, e) => RoomEvKeepsInv(s, id, e);
    case TickEv(t, now, todo) => TickKeepsInv(s, t, now, todo);
    case DecideEv(t) => DecideKeepsInv(s, t);
    case WriteEv(t, applied, reply) => WriteKeepsInv(s, t, applied, reply);
    case MarkEv(t) => MarkKeepsInv(s, t);
    case ReapEv(now) =>
      ReapKeepsInverse(s.manager, now);
      ReapFollows(s.manager, now);
      RoomsFollowKeepInv(s, Reap(s.manager, now));
    case AskEv(q, m, now) =>
      ReapKeepsInverse(s.manager, now);
      ReapFollows(s.manager, now);
      RoomsFollowKeepInv(s, Reap(s.manager, now));
    case AnswerEv(_, _) =>
    case AbortEv(now) =>
      AfterAbortKeepsInverse(s.manager, now);
      AbortedRoomsIsAbortEvent(s.manager.rooms, now);
      ApplyAllFollows(s.manager, Event(now, AbortOp));
      RoomsFollowKeepInv(s, AfterAbort(s.manager, now));
    case CrashEv =>
    case LateWriteEv(rec) => LateWriteKeepsInv(s, rec);
    case RestoreEv(rooms) => RestoreKeepsInv(s, rooms);
  }

  // ------------------------------------------------------------------ runs

  ghost predicate Legal(s: Sys, evs: seq<SysEvent>)
    requires SysInv(s)
    decreases |evs|
  {
    evs == [] || (Enabled(s, evs[0]) && (StepKeepsInv(s, evs[0]); Legal(Step(s, evs[0]), evs[1..])))
  }

  ghost function Run(s: Sys, evs: seq<SysEvent>): (q: Sys)
    requires SysInv(s) && Legal(s, evs)
    ensures SysInv(q)
    decreases |evs|
  {
    if evs == [] then s else (StepKeepsInv(s, evs[0]); Run(Step(s, evs[0]), evs[1..]))
  }

  lemma StepKeepsRows(s: Sys, ev: SysEvent, m: string)
    requires SysInv(s) && Enabled(s, ev) && m in s.table
    ensures m in Step(s, ev).table && Step(s, ev).table[m] == s.table[m]
    ensures !Step(s, ev).crashed ==> !s.crashed
  {
  }

  /** What a request with nothing in between gets: a row, or nothing yet. */
  ghost function Answer(s: Sys, m: string): Option<Result> {
    if LookUp(s.manager, m).AskTable? && m in s.table then Some(s.table[m]) else None
  }

  /** Once a row is stored it never changes, through ticks, retries, lost replies, crashes, restores and
      inserts that outlive their process. */
  lemma {:induction false} RowsNeverChange(s: Sys, evs: seq<SysEvent>, m: string)
    requires SysInv(s) && Legal(s, evs) && m in s.table
    ensures m in Run(s, evs).table && Run(s, evs).table[m] == s.table[m]
    decreases |evs|
  {
    if evs != [] {
      StepKeepsInv(s, evs[0]);
      StepKeepsRows(s, evs[0], m);
      RowsNeverChange(Step(s, evs[0]), evs[1..], m);
    }
  }

  lemma {:induction false} AnswersStand(s: Sys, evs: seq<SysEvent>)
    requires SysInv(s) && Legal(s, evs)
    ensures s.given <= Run(s, evs).given
    decreases |evs|
  {
    if evs != [] {
      StepKeepsInv(s, evs[0]);
      AnswersStand(Step(s, evs[0]), evs[1..]);
    }
  }

  /** Any two results ever answered for one match are equal, whatever happened between the decision under
      the lock and the read of the table; and they stay the row of that match. */
  lemma AnswersAgree(s: Sys, evs: seq<SysEvent>, more: seq<SysEvent>, m: string, a: Result, b: Result)
    requires SysInv(s) && Legal(s, evs) && Legal(Run(s, evs), more)
    requires (m, a) in Run(s, evs).given && (m, b) in Run(Run(s, evs), more).given
    ensures var q := Run(Run(s, evs), more);
      a == b && (m, a) in q.given && m in q.table && q.table[m] == a
  {
    var mid := Run(s, evs);
    AnswersStand(mid, more);
    assert (m, a) in Run(mid, more).given;
  }

  /** In every run: a room is finished only if its row exists; an answer for a match whose room is in
      memory is given only when that room is finished; and, as long as no process has crashed, the row
      is the room's own result. */
  lemma FinishedMeansStored(s: Sys, evs: seq<SysEvent>, id: string)
    requires SysInv(s) && Legal(s, evs)
    requires id in Run(s, evs).manager.rooms
    ensures var q := Run(s, evs);
      var r := q.manager.rooms[id];
      && (r.phase.Finished? ==> r.matchId in q.table)
      && (Answer(q, r.matchId).Some? <==> r.phase.Finished?)
      && (r.phase.Finished? && !q.crashed ==> Answer(q, r.matchId) == ResultOf(r))
  {
    var q := Run(s, evs);
    assert Inverse(q.manager);
  }
}
