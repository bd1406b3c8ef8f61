/** The room registry as a value: what the manager's locked sections do to it. */
module ManagerCore {
  import opened Wrappers
  import opened RoomCore
  import opened RoomStore

  datatype Schedule = Schedule(lastWrite: int, lastPhase: Phase, written: bool)

  /** `rooms` by room id, `index` from match id to room id, `due` the snapshot schedule by match id. */
  datatype Manager = Manager(
    rooms: map<string, Room>, index: map<string, string>, due: map<string, Schedule>, closing: bool)

  const SNAPSHOT_INTERVAL_MS := 1000

  /** The two tables are inverse to each other. */
  ghost predicate Indexed(rooms: map<string, Room>, index: map<string, string>) {
    && (forall id :: id in rooms ==>
          rooms[id].roomId == id && rooms[id].matchId in index && index[rooms[id].matchId] == id)
    && (forall k :: k in index ==> index[k] in rooms && rooms[index[k]].matchId == k)
  }

  ghost predicate AllOk(rooms: map<string, Room>) {
    forall id :: id in rooms ==> RoomOk(rooms[id])
  }

  ghost predicate Inverse(m: Manager) {
    Indexed(m.rooms, m.index) && AllOk(m.rooms)
  }

  ghost predicate AllTwoSeats(rooms: map<string, Room>) {
    forall id :: id in rooms ==> TwoSeats(rooms[id])
  }

  lemma OkRoomsHaveTwoSeats(rooms: map<string, Room>)
    requires AllOk(rooms)
    ensures AllTwoSeats(rooms)
  {
  }

  // ------------------------------------------------------------------ creation

  datatype CreateOutcome = CreatedRoom(roomId: string) | BadRequest | NoRoomId | ClosingDown

  predicate ValidRequest(matchId: string, ids: seq<string>) {
    ValidId(matchId) && ids != [] && forall i :: 0 <= i < |ids| ==> ValidId(ids[i])
  }

  /** `newId` is the id factory's answer, used only if a room is built. */
  function CreateRoom(m: Manager, matchId: string, ids: seq<string>, newId: string, now: int)
    : (Manager, CreateOutcome)
  {
    if !ValidRequest(matchId, ids) then (m, BadRequest)
    else if matchId in m.index && m.index[matchId] in m.rooms then (m, CreatedRoom(m.index[matchId]))
    else if m.closing then (m.(index := m.index - {matchId}), ClosingDown)
    else if newId == "" then (m.(index := m.index - {matchId}), NoRoomId)
    else
      // A room already under that id stays; the match is indexed to it all the same.
      (m.(rooms := if newId in m.rooms then m.rooms else m.rooms[newId := NewRoom(newId, matchId, ids, now)],
          index := m.index[matchId := newId]),
       CreatedRoom(newId))
  }

  /** The request gets as far as building a room. */
  predicate Builds(m: Manager, matchId: string, ids: seq<string>, newId: string) {
    ValidRequest(matchId, ids) && !(matchId in m.index && m.index[matchId] in m.rooms) && !m.closing && newId != ""
  }

  lemma BuildingKeepsInverse(m: Manager, r: Room)
    requires Inverse(m) && RoomOk(r) && r.matchId !in m.index && r.roomId !in m.rooms
    ensures Inverse(m.(rooms := m.rooms[r.roomId := r], index := m.index[r.matchId := r.roomId]))
  {
  }

  /** Two matches indexed to one room. */
  lemma RepeatedIdBreaksInverse(m: Manager, matchId: string, id: string)
    requires Indexed(m.rooms, m.index) && matchId !in m.index && id in m.rooms
    ensures !Indexed(m.rooms, m.index[matchId := id])
  {
    assert matchId in m.index[matchId := id];
  }

  /** Asking again for a match that has a room gives the same room; a new match gets a new one, and the
      tables stay inverse exactly if the id factory did not repeat the id of a room that is still there. */
  lemma CreateKeepsInverse(m: Manager, matchId: string, ids: seq<string>, newId: string, now: int)
    requires Inverse(m)
    requires |ids| == 2 && ids[0] != ids[1]
    ensures Inverse(CreateRoom(m, matchId, ids, newId, now).0)
      <==> !(Builds(m, matchId, ids, newId) && newId in m.rooms)
    ensures matchId in m.index && ValidRequest(matchId, ids) ==>
      CreateRoom(m, matchId, ids, newId, now) == (m, CreatedRoom(m.index[matchId]))
  {
    if ValidRequest(matchId, ids) && matchId !in m.index {
      assert m.index - {matchId} == m.index;
      if Builds(m, matchId, ids, newId) {
        if newId in m.rooms {
          RepeatedIdBreaksInverse(m, matchId, newId);
        } else {
          NewRoomOk(newId, matchId, ids, now);
          BuildingKeepsInverse(m, NewRoom(newId, matchId, ids, now));
        }
      }
    }
  }

  /** What a request to create is answered, and what it leaves: a new room is a fresh one for these players. */
  lemma CreateAnswers(m: Manager, matchId: string, ids: seq<string>, newId: string, now: int)
    requires Inverse(m) && newId !in m.rooms
    ensures var (q, answer) := CreateRoom(m, matchId, ids, newId, now);
      var fits := 1 <= |matchId| <= 64 && ids != [] && forall i :: 0 <= i < |ids| ==> 1 <= |ids[i]| <= 64;
      && (answer.BadRequest? <==> !fits)
      && (fits && matchId in m.index ==> answer == CreatedRoom(m.index[matchId]))
      && (fits && matchId !in m.index ==>
            if m.closing then answer == ClosingDown else if newId == "" then answer == NoRoomId
            else
              && answer == CreatedRoom(newId) && q.rooms == m.rooms[newId := NewRoom(newId, matchId, ids, now)]
              && q.index == m.index[matchId := newId])
      && (!answer.CreatedRoom? || matchId in m.index ==> q.rooms == m.rooms)
  {
  }

  /** A lookup keeps exactly the rooms that have not been over for five minutes, and their entries. */
  lemma ReapExactly(m: Manager, now: int, id: string)
    requires Inverse(m) && id in m.rooms
    ensures var q := Reap(m, now);
      var r := m.rooms[id];
      var past := (r.phase.Finished? || r.phase.Aborted?) && now - r.finishedAt >= 300000;
      && (id in q.rooms <==> !past) && (r.matchId in q.index <==> !past) && (past ==> r.matchId !in q.due)
      && (!past ==>
            && q.rooms[id] == r && q.index[r.matchId] == id && (r.matchId in q.due <==> r.matchId in m.due)
            && (r.matchId in m.due ==> q.due[r.matchId] == m.due[r.matchId]))
      && q.rooms.Keys <= m.rooms.Keys && q.closing == m.closing
  {
    assert m.index[m.rooms[id].matchId] == id;
    assert IsExpired(m.rooms[id], now) <==> m.rooms[id].matchId in ExpiredMatches(m, now);
  }

  // ------------------------------------------------------------------ one room at a time

  function WithRoom(m: Manager, id: string, r: Room): Manager {
    m.(rooms := m.rooms[id := r])
  }

  lemma {:induction false} AdvanceManyIds(r: Room, n: nat, now: int)
    requires TwoSeats(r)
    ensures AdvanceMany(r, n, now).roomId == r.roomId && AdvanceMany(r, n, now).matchId == r.matchId
    decreases n
  {
    if n > 0 && r.phase.Playing? {
      AdvanceManyIds(Advance(Stepped(r), now), n - 1, now);
    }
  }

  lemma ApplyKeepsIds(r: Room, ev: Event)
    requires TwoSeats(r)
    ensures Apply(r, ev).roomId == r.roomId && Apply(r, ev).matchId == r.matchId
  {
    if ev.op.TickOp? && r.phase.Playing? && !SomeoneOffline(r) && ev.now >= r.lastTick {
      AdvanceManyIds(r.(lastTick := CatchUpBase(r, ev.now)), FramesTaken(r, ev.now), ev.now);
    }
  }

  lemma WithRoomKeepsInverse(m: Manager, id: string, r: Room)
    requires Inverse(m) && id in m.rooms && RoomOk(r)
    requires r.roomId == id && r.matchId == m.rooms[id].matchId
    ensures Inverse(WithRoom(m, id, r))
  {
  }

  lemma RoomEventKeepsInverse(m: Manager, id: string, ev: Event)
    requires Inverse(m) && id in m.rooms
    ensures Inverse(WithRoom(m, id, Apply(m.rooms[id], ev)))
  {
    ApplyKeepsOk(m.rooms[id], ev);
    ApplyKeepsIds(m.rooms[id], ev);
    WithRoomKeepsInverse(m, id, Apply(m.rooms[id], ev));
  }

  // ------------------------------------------------------------------ all rooms

  ghost function ApplyAll(rooms: map<string, Room>, ev: Event): map<string, Room>
    requires AllTwoSeats(rooms)
  {
    map id | id in rooms :: Apply(rooms[id], ev)
  }

  lemma ApplyAllKeepsInverse(m: Manager, ev: Event)
    requires Inverse(m)
    ensures AllTwoSeats(m.rooms)
    ensures Inverse(m.(rooms := ApplyAll(m.rooms, ev)))
  {
    var rooms := ApplyAll(m.rooms, ev);
    forall id | id in rooms
      ensures RoomOk(rooms[id]) && rooms[id].roomId == id && rooms[id].matchId == m.rooms[id].matchId
    {
      ApplyKeepsOk(m.rooms[id], ev);
      ApplyKeepsIds(m.rooms[id], ev);
    }
  }

  /** Finished and aborted rooms are dropped after the retention time, with their index and schedule. */
  function Reap(m: Manager, now: int): Manager {
    m.(rooms := m.rooms - ExpiredIds(m, now),
       index := m.index - ExpiredMatches(m, now),
       due := m.due - ExpiredMatches(m, now))
  }

  function ExpiredIds(m: Manager, now: int): set<string> {
    set id | id in m.rooms && IsExpired(m.rooms[id], now)
  }

  function ExpiredMatches(m: Manager, now: int): set<string> {
    set id | id in m.rooms && IsExpired(m.rooms[id], now) :: m.rooms[id].matchId
  }

  lemma ReapKeepsInverse(m: Manager, now: int)
    requires Inverse(m)
    ensures Inverse(Reap(m, now))
  {
    var q := Reap(m, now);
    forall id | id in q.rooms ensures q.rooms[id].matchId in q.index && q.index[q.rooms[id].matchId] == id {
      assert m.rooms[id].matchId !in ExpiredMatches(m, now);
    }
    forall k | k in q.index ensures q.index[k] in q.rooms {
      assert m.rooms[m.index[k]].matchId !in ExpiredMatches(m, now);
    }
  }

  // ------------------------------------------------------------------ the snapshot schedule

  function ScheduleIn(due: map<string, Schedule>, matchId: string): Schedule {
    if matchId in due then due[matchId] else Schedule(0, Created, false)
  }

  predicate ShouldSnapshot(s: Schedule, phase: Phase, now: int) {
    || ((phase.Finished? || phase.Aborted?) && (!s.written || s.lastPhase != phase))
    || !s.written
    || now - s.lastWrite >= SNAPSHOT_INTERVAL_MS
  }

  // ------------------------------------------------------------------ results

  datatype Lookup = NotFound | Pending | AskTable

  /** What GetResult decides under the lock: answer at once, or read the results table. */
  function LookUp(m: Manager, matchId: string): Lookup {
    if matchId in m.index && m.index[matchId] in m.rooms then
      match m.rooms[m.index[matchId]].phase
      case Finishing => Pending
      case Finished => AskTable
      case _ => NotFound
    else AskTable
  }

  /** A match whose game is decided but not written is pending, one still going on or aborted has no result,
      and for any other the table is asked. */
  lemma LookUpExactly(m: Manager, matchId: string)
    ensures var known := matchId in m.index && m.index[matchId] in m.rooms;
      match LookUp(m, matchId)
      case Pending => known && m.rooms[m.index[matchId]].phase.Finishing?
      case NotFound =>
        known && var phase := m.rooms[m.index[matchId]].phase;
                 phase.Created? || phase.Waiting? || phase.Playing? || phase.Aborted?
      case AskTable => !known || m.rooms[m.index[matchId]].phase.Finished?
  {
  }

  // ------------------------------------------------------------------ the locked part of a tick

  function RoomOf(m: Manager, matchId: string): Room
    requires matchId in m.index && m.index[matchId] in m.rooms
  {
    m.rooms[m.index[matchId]]
  }

  predicate IsDue(due: map<string, Schedule>, r: Room, now: int) {
    ShouldSnapshot(ScheduleIn(due, r.matchId), r.phase, now)
  }

  function NextSchedule(due: map<string, Schedule>, r: Room, now: int): Schedule {
    if IsDue(due, r, now) then Schedule(now, r.phase, true) else ScheduleIn(due, r.matchId)
  }

  /** The schedule afterwards: an entry for every room, refreshed where a snapshot was taken. */
  ghost function DueAfter(m: Manager, now: int): map<string, Schedule>
    requires Indexed(m.rooms, m.index)
  {
    map k | k in m.due.Keys + m.index.Keys :: if k in m.index then NextSchedule(m.due, RoomOf(m, k), now) else m.due[k]
  }

  /** A row was taken of the room within the last second, and in the phase it has ended in. */
  predicate HasFreshRow(due: map<string, Schedule>, r: Room, now: int) {
    && r.matchId in due && due[r.matchId].written && due[r.matchId].lastWrite > now - 1000
    && (r.phase.Finished? || r.phase.Aborted? ==> due[r.matchId].lastPhase == r.phase)
  }

  lemma EveryRowIsFresh(m: Manager, now: int)
    requires Indexed(m.rooms, m.index)
    ensures forall id :: id in m.rooms ==> HasFreshRow(DueAfter(m, now), m.rooms[id], now)
  {
    forall id | id in m.rooms ensures HasFreshRow(DueAfter(m, now), m.rooms[id], now) {
      assert m.rooms[id].matchId in m.index && m.index[m.rooms[id].matchId] == id;
    }
  }

  lemma ReapKeepsFreshRows(m: Manager, now: int)
    requires Indexed(m.rooms, m.index) && forall id :: id in m.rooms ==> HasFreshRow(m.due, m.rooms[id], now)
    ensures var q := Reap(m, now); forall id :: id in q.rooms ==> HasFreshRow(q.due, q.rooms[id], now)
  {
    var q := Reap(m, now);
    forall id | id in q.rooms ensures HasFreshRow(q.due, q.rooms[id], now) {
      assert m.index[m.rooms[id].matchId] == id && m.rooms[id].matchId !in ExpiredMatches(m, now);
    }
  }

  /** What a tick does under the lock, before it writes anything: every room ticks, due snapshots are
      taken, expired rooms go. */
  ghost function Ticked(m: Manager, now: int): Manager
    requires Inverse(m)
  {
    OkRoomsHaveTwoSeats(m.rooms);
    m.(rooms := ApplyAll(m.rooms, Event(now, TickOp)))
  }

  ghost function LockedTick(m: Manager, now: int): Manager
    requires Inverse(m)
  {
    ApplyAllKeepsInverse(m, Event(now, TickOp));
    Reap(Ticked(m, now).(due := DueAfter(Ticked(m, now), now)), now)
  }

  lemma TickedKeepsInverse(m: Manager, now: int)
    requires Inverse(m)
    ensures Inverse(Ticked(m, now)) && Inverse(LockedTick(m, now))
    ensures AllTwoSeats(m.rooms) && AllTwoSeats(Ticked(m, now).rooms)
  {
    ApplyAllKeepsInverse(m, Event(now, TickOp));
    ReapKeepsInverse(Ticked(m, now).(due := DueAfter(Ticked(m, now), now)), now);
  }

  lemma TickedRoom(m: Manager, now: int, id: string)
    requires Inverse(m) && id in m.rooms
    ensures TwoSeats(m.rooms[id])
    ensures var t := Ticked(m, now);
      t.rooms.Keys == m.rooms.Keys && t.closing == m.closing && t.rooms[id] == Apply(m.rooms[id], Event(now, TickOp))
  {
  }

  /** The room stays as it is, or, if it has been over for five minutes, is gone. */
  predicate StaysUnlessPast(q: Manager, id: string, r: Room, now: int) {
    var past := (r.phase.Finished? || r.phase.Aborted?) && now - r.finishedAt >= 300000;
    (id in q.rooms <==> !past) && (id in q.rooms ==> q.rooms[id] == r)
  }

  lemma ReapedUnlessPast(m: Manager, now: int, id: string)
    requires Inverse(m) && id in m.rooms
    ensures StaysUnlessPast(Reap(m, now), id, m.rooms[id], now)
    ensures Reap(m, now).rooms.Keys <= m.rooms.Keys && Reap(m, now).closing == m.closing
  {
    ReapExactly(m, now, id);
  }

  lemma ReapedWithDue(m: Manager, due: map<string, Schedule>, now: int, id: string)
    requires Inverse(m) && id in m.rooms
    ensures var q := Reap(m.(due := due), now);
      q.rooms.Keys <= m.rooms.Keys && q.closing == m.closing && StaysUnlessPast(q, id, m.rooms[id], now)
  {
    ReapedUnlessPast(m.(due := due), now, id);
  }

  /** A tick moves every room by the room's own tick, and then drops those over for five minutes. */
  lemma TickMovesEveryRoom(m: Manager, now: int, id: string)
    requires Inverse(m) && id in m.rooms
    ensures TwoSeats(m.rooms[id])
    ensures var q := LockedTick(m, now);
      && q.rooms.Keys <= m.rooms.Keys && q.closing == m.closing
      && StaysUnlessPast(q, id, Apply(m.rooms[id], Event(now, TickOp)), now)
  {
    TickedRoom(m, now, id);
    TickedKeepsInverse(m, now);
    ReapedWithDue(Ticked(m, now), DueAfter(Ticked(m, now), now), now, id);
  }

  // ------------------------------------------------------------------ shutting down

  function UnfinishedIds(rooms: map<string, Room>): set<string> {
    set id | id in rooms && !Over(rooms[id].phase)
  }

  lemma UnfinishedMore(rooms: map<string, Room>, todo: set<string>, id: string)
    requires id in rooms && id in todo
    ensures UnfinishedIds(rooms) - (todo - {id})
      == (UnfinishedIds(rooms) - todo) + if Over(rooms[id].phase) then {} else {id}
    ensures id !in UnfinishedIds(rooms) - todo
  {
  }

  function MatchesOf(rooms: map<string, Room>, ids: set<string>): set<string>
    requires ids <= rooms.Keys
  {
    set id | id in ids :: rooms[id].matchId
  }

  lemma MatchesOfMore(rooms: map<string, Room>, ids: set<string>, id: string)
    requires ids <= rooms.Keys && id in rooms
    ensures MatchesOf(rooms, ids + {id}) == MatchesOf(rooms, ids) + {rooms[id].matchId}
  {
  }

  function AbortedRooms(rooms: map<string, Room>, now: int): map<string, Room> {
    map id | id in rooms :: if Over(rooms[id].phase) then rooms[id] else Abort(rooms[id], now)
  }

  function MarkedAborted(due: map<string, Schedule>, matches: set<string>, now: int): map<string, Schedule> {
    map k | k in due.Keys + matches :: if k in matches then Schedule(now, Aborted, true) else due[k]
  }

  lemma MarkedMore(due: map<string, Schedule>, matches: set<string>, now: int, k: string)
    ensures MarkedAborted(due, matches, now)[k := Schedule(now, Aborted, true)]
      == MarkedAborted(due, matches + {k}, now)
  {
  }

  /** Games without a verdict are aborted and marked as written now; decided ones stay as they are. */
  function AfterAbort(m: Manager, now: int): Manager {
    m.(rooms := AbortedRooms(m.rooms, now),
       due := MarkedAborted(m.due, MatchesOf(m.rooms, UnfinishedIds(m.rooms)), now))
  }

  /** Shutting down aborts exactly the games without a verdict, now, and counts them as written so. */
  lemma AbortExactly(m: Manager, now: int, id: string)
    requires Inverse(m) && id in m.rooms
    ensures var r, q := m.rooms[id], AfterAbort(m, now);
      && q.rooms.Keys == m.rooms.Keys && q.index == m.index
      && (if r.phase.Created? || r.phase.Waiting? || r.phase.Playing? then
            && q.rooms[id].phase.Aborted? && q.rooms[id].finishedAt == now && q.rooms[id].winner == ""
            && q.rooms[id].matchId == r.matchId
            && r.matchId in q.due && q.due[r.matchId] == Schedule(now, Aborted, true)
          else q.rooms[id] == r && (r.matchId in q.due <==> r.matchId in m.due))
  {
    assert m.index[m.rooms[id].matchId] == id;
  }

  lemma AbortedHaveTwoSeats(rooms: map<string, Room>, now: int)
    requires AllTwoSeats(rooms)
    ensures AllTwoSeats(AbortedRooms(rooms, now))
  {
  }

  lemma AbortedRoomsIsAbortEvent(rooms: map<string, Room>, now: int)
    requires AllTwoSeats(rooms)
    ensures AbortedRooms(rooms, now) == ApplyAll(rooms, Event(now, AbortOp)) && AllTwoSeats(AbortedRooms(rooms, now))
  {
  }

  lemma AfterAbortKeepsInverse(m: Manager, now: int)
    requires Inverse(m)
    ensures Inverse(AfterAbort(m, now)) && AllTwoSeats(m.rooms) && AllTwoSeats(AfterAbort(m, now).rooms)
  {
    ApplyAllKeepsInverse(m, Event(now, AbortOp));
    AbortedRoomsIsAbortEvent(m.rooms, now);
  }

  // ------------------------------------------------------------------ restoring

  function AddRestored(m: Manager, r: Room): Manager {
    if r.roomId in m.rooms || r.matchId in m.index then m
    else m.(rooms := m.rooms[r.roomId := r], index := m.index[r.matchId := r.roomId])
  }

  lemma AddRestoredKeepsInverse(m: Manager, r: Room)
    requires Inverse(m) && RoomOk(r)
    ensures Inverse(AddRestored(m, r))
  {
  }

  function RestoreRow(m: Manager, row: ReadRow, now: int): Manager {
    if row.Usable? && RestoreFrom(row.rec, now).Some? then AddRestored(m, RestoreFrom(row.rec, now).value) else m
  }

  function RestoreRows(m: Manager, rows: seq<ReadRow>, now: int): Manager
    decreases |rows|
  {
    if rows == [] then m else RestoreRows(RestoreRow(m, rows[0], now), rows[1..], now)
  }

  /** A row no room can be rebuilt from. */
  predicate Rejected(row: ReadRow, now: int) {
    row.Unusable? || RestoreFrom(row.rec, now).None?
  }

  function RefusedOf(row: ReadRow, now: int): seq<Record> {
    if Rejected(row, now) then [Refused(row.rec, now)] else []
  }

  /** The records written over the rows no room can be rebuilt from, in order. */
  function RefusedRecords(rows: seq<ReadRow>, now: int): seq<Record>
    decreases |rows|
  {
    if rows == [] then [] else RefusedOf(rows[0], now) + RefusedRecords(rows[1..], now)
  }

  lemma {:induction false} RefusedMore(rows: seq<ReadRow>, row: ReadRow, now: int)
    ensures RefusedRecords(rows + [row], now) == RefusedRecords(rows, now) + RefusedOf(row, now)
    decreases |rows|
  {
    if rows == [] {
      assert rows + [row] == [row] && [row][1..] == [];
    } else {
      assert (rows + [row])[1..] == rows[1..] + [row];
      RefusedMore(rows[1..], row, now);
    }
  }

  /** Exactly the rows no room can be rebuilt from are written over, one record for each. */
  lemma {:induction false} RefusedExactly(rows: seq<ReadRow>, now: int, rec: Record)
    ensures rec in RefusedRecords(rows, now)
      <==> exists i :: 0 <= i < |rows| && Rejected(rows[i], now) && rec == Refused(rows[i].rec, now)
    ensures |RefusedRecords(rows, now)| <= |rows|
    decreases |rows|
  {
    if rows != [] {
      RefusedExactly(rows[1..], now, rec);
      if exists i :: 0 <= i < |rows| && Rejected(rows[i], now) && rec == Refused(rows[i].rec, now) {
        var i :| 0 <= i < |rows| && Rejected(rows[i], now) && rec == Refused(rows[i].rec, now);
        if i > 0 {
          assert rows[1..][i - 1] == rows[i];
        }
      }
      if rec in RefusedRecords(rows[1..], now) {
        var i :| 0 <= i < |rows[1..]| && Rejected(rows[1..][i], now) && rec == Refused(rows[1..][i].rec, now);
        assert rows[i + 1] == rows[1..][i];
      }
    }
  }

  /** Every row that can be rebuilt gives a room in order. */
  ghost predicate HonestRows(rows: seq<ReadRow>, now: int) {
    forall row :: row in rows && !Rejected(row, now) ==> RoomOk(RestoreFrom(row.rec, now).value)
  }

  lemma {:induction false} RestoreRowsKeepsInverse(m: Manager, rows: seq<ReadRow>, now: int)
    requires Inverse(m) && HonestRows(rows, now)
    ensures Inverse(RestoreRows(m, rows, now))
    decreases |rows|
  {
    if rows != [] {
      assert rows[0] in rows;
      if !Rejected(rows[0], now) {
        AddRestoredKeepsInverse(m, RestoreFrom(rows[0].rec, now).value);
      }
      assert forall row :: row in rows[1..] ==> row in rows;
      RestoreRowsKeepsInverse(RestoreRow(m, rows[0], now), rows[1..], now);
    }
  }

  /** A room restored from a row, whose id and match no other row claims, is found under its match with
      the row's content. */
  lemma {:induction false} RestoredRoomsAreFound(m: Manager, rows: seq<ReadRow>, i: nat, now: int)
    requires Indexed(m.rooms, m.index) && i < |rows| && !Rejected(rows[i], now)
    requires rows[i].rec.roomId !in m.rooms && rows[i].rec.matchId !in m.index
    requires forall k :: 0 <= k < i && !Rejected(rows[k], now) ==>
      rows[k].rec.roomId != rows[i].rec.roomId && rows[k].rec.matchId != rows[i].rec.matchId
    ensures var q := RestoreRows(m, rows, now);
      && rows[i].rec.matchId in q.index && q.index[rows[i].rec.matchId] == rows[i].rec.roomId
      && rows[i].rec.roomId in q.rooms && q.rooms[rows[i].rec.roomId] == RestoreFrom(rows[i].rec, now).value
    decreases |rows|
  {
    if i == 0 {
      RestoreKeepsPresent(RestoreRow(m, rows[0], now), rows[1..], now, rows[0].rec.roomId, rows[0].rec.matchId);
    } else {
      RestoredRoomsAreFound(RestoreRow(m, rows[0], now), rows[1..], i - 1, now);
    }
  }

  lemma {:induction false} RestoreKeepsPresent(m: Manager, rows: seq<ReadRow>, now: int, id: string, k: string)
    requires id in m.rooms && k in m.index
    ensures var q := RestoreRows(m, rows, now);
      id in q.rooms && q.rooms[id] == m.rooms[id] && k in q.index && q.index[k] == m.index[k]
    decreases |rows|
  {
    if rows != [] {
      RestoreKeepsPresent(RestoreRow(m, rows[0], now), rows[1..], now, id, k);
    }
  }
}
