/** The room registry as an object: its locked sections, each proved against ManagerCore.

    The rooms it owns are values here; BattleRooms has the same operations on a room object. The sections
    named `...Locked` run with the mutex held and do not rely on the invariant; the public ones keep it. */
module RoomManagers {
  import opened Wrappers
  import opened Maps
  import opened RoomCore
  import opened RoomHistory
  import opened RoomStore
  import opened ManagerCore
  import opened Seqs

  datatype RestoreReport = RestoreReport(loadFailed: bool, scanned: nat, restored: nat, rejected: nat)

  class RoomManager {
    var rooms: map<string, Room>
    var matchIndex: map<string, string>
    var snapshotState: map<string, Schedule>
    var shuttingDown: bool

    ghost function Model(): Manager
      reads this
    {
      Manager(rooms, matchIndex, snapshotState, shuttingDown)
    }

    /** The two tables are inverse to each other and every room is in order. */
    ghost predicate Valid()
      reads this
    {
      Inverse(Model())
    }

    constructor ()
      ensures Valid() && Model() == Manager(map[], map[], map[], false)
    {
      rooms, matchIndex, snapshotState, shuttingDown := map[], map[], map[], false;
    }

    method BeginShutdown()
      requires Valid()
      modifies this`shuttingDown
      ensures Valid() && Model() == old(Model()).(closing := true)
    {
      shuttingDown := true;
    }

    // ---------------------------------------------------------------- creation

    method AnyBadId(ids: seq<string>) returns (bad: bool)
      ensures bad <==> exists i :: 0 <= i < |ids| && !ValidId(ids[i])
    {
      var i := 0;
      while i < |ids|
        invariant 0 <= i <= |ids|
        invariant forall k :: 0 <= k < i ==> ValidId(ids[k])
      {
        if |ids[i]| == 0 || |ids[i]| > MAX_ID_LENGTH {
          return true;
        }
        i := i + 1;
      }
      return false;
    }

    method CreateLocked(matchId: string, ids: seq<string>, newId: string, now: int) returns (outcome: CreateOutcome)
      requires ValidRequest(matchId, ids)
      modifies this`rooms, this`matchIndex
      ensures (Model(), outcome) == CreateRoom(old(Model()), matchId, ids, newId, now)
    {
      if matchId in matchIndex {
        if matchIndex[matchId] in rooms {
          return CreatedRoom(matchIndex[matchId]);
        }
        matchIndex := matchIndex - {matchId};
      }
      assert matchIndex == old(matchIndex) - {matchId};
      if shuttingDown {
        return ClosingDown;
      }
      if newId == "" {
        return NoRoomId;
      }
      if newId !in rooms {
        rooms := rooms[newId := NewRoom(newId, matchId, ids, now)];
      }
      matchIndex := matchIndex[matchId := newId];
      assert matchIndex == old(matchIndex)[matchId := newId];
      return CreatedRoom(newId);
    }

    /** `newId` is the id factory's answer. The number of players is not checked; with two distinct ones the
        manager stays in order exactly if the factory did not repeat an id. */
    method Create(matchId: string, ids: seq<string>, newId: string, now: int) returns (outcome: CreateOutcome)
      requires Valid()
      modifies this`rooms, this`matchIndex
      ensures |ids| == 2 && ids[0] != ids[1] ==>
        (Valid() <==> !(Builds(old(Model()), matchId, ids, newId) && newId in old(rooms)))
      ensures (Model(), outcome) == CreateRoom(old(Model()), matchId, ids, newId, now)
    {
      if |ids| == 2 && ids[0] != ids[1] {
        CreateKeepsInverse(Model(), matchId, ids, newId, now);
      }
      if |matchId| == 0 || |matchId| > MAX_ID_LENGTH || ids == [] {
        return BadRequest;
      }
      var bad := AnyBadId(ids);
      if bad {
        return BadRequest;
      }
      outcome := CreateLocked(matchId, ids, newId, now);
    }

    // ---------------------------------------------------------------- one room

    /** One event for one room; false if there is no such room. */
    method Deliver(id: string, ev: Event) returns (found: bool)
      requires Valid()
      modifies this`rooms
      ensures Valid()
      ensures found <==> id in old(rooms)
      ensures found ==> TwoSeats(old(rooms)[id])
      ensures Model() == if found then WithRoom(old(Model()), id, Apply(old(rooms)[id], ev)) else old(Model())
    {
      if id in rooms {
        RoomEventKeepsInverse(Model(), id, ev);
      }
      found := DeliverLocked(id, ev);
    }

    method DeliverLocked(id: string, ev: Event) returns (found: bool)
      requires id in rooms ==> TwoSeats(rooms[id])
      modifies this`rooms
      ensures found <==> id in old(rooms)
      ensures Model() == if found then WithRoom(old(Model()), id, Apply(old(rooms)[id], ev)) else old(Model())
    {
      if id !in rooms {
        return false;
      }
      rooms := rooms[id := Apply(rooms[id], ev)];
      return true;
    }

    /** The second look at a room before its result is written. */
    method PendingResult(id: string) returns (r: Option<Result>)
      ensures r == if id in rooms && rooms[id].phase.Finishing? then ResultOf(rooms[id]) else None
    {
      if id !in rooms || !rooms[id].phase.Finishing? {
        return None;
      }
      return ResultOf(rooms[id]);
    }

    /** After the write returned: finished only if it was confirmed. */
    method MarkWritten(id: string, ok: bool, now: int)
      requires Valid()
      modifies this`rooms
      ensures Valid()
      ensures id in old(rooms) ==> TwoSeats(old(rooms)[id])
      ensures Model() == if id !in old(rooms) then old(Model())
                         else WithRoom(old(Model()), id, Apply(old(rooms)[id], Marking(ok, now)))
      ensures id in old(rooms) ==>
        var before, after := old(rooms)[id], rooms[id];
        if !before.phase.Finishing? then after == before
        else if ok then after == before.(phase := Finished)
        else after == before.(lastPersist := now)
    {
      if id in rooms {
        MarkingDecides(rooms[id], ok, now);
      }
      var _ := Deliver(id, Marking(ok, now));
    }

    // ---------------------------------------------------------------- the tick

    method ReapExpiredLocked(now: int)
      modifies this`rooms, this`matchIndex, this`snapshotState
      ensures Model() == Reap(old(Model()), now)
    {
      ghost var m := Model();
      var todo := rooms.Keys;
      ghost var gone: set<string>, matches: set<string> := {}, {};
      while todo != {}
        invariant todo <= rooms.Keys && gone == ExpiredIds(m, now) - todo
        invariant rooms == m.rooms - gone
        invariant matchIndex == m.index - matches && snapshotState == m.due - matches
        invariant matches == set id | id in gone :: m.rooms[id].matchId
        invariant shuttingDown == m.closing
      {
        var id :| id in todo;
        if IsExpired(rooms[id], now) {
          ghost var k := rooms[id].matchId;
          matchIndex := matchIndex - {rooms[id].matchId};
          snapshotState := snapshotState - {rooms[id].matchId};
          rooms := rooms - {id};
          gone, matches := gone + {id}, matches + {k};
        }
        todo := todo - {id};
      }
      assert gone == ExpiredIds(m, now);
      assert matches == ExpiredMatches(m, now);
    }

    method TickRoomsLocked(now: int)
      requires AllTwoSeats(rooms)
      modifies this`rooms
      ensures rooms == ApplyAll(old(rooms), Event(now, TickOp))
    {
      ghost var before, after := rooms, ApplyAll(rooms, Event(now, TickOp));
      MixedEnds(before, after);
      var todo := rooms.Keys;
      while todo != {}
        invariant todo <= before.Keys && rooms == Mixed(before, after, todo)
      {
        var id :| id in todo;
        MixedStep(before, after, todo, id);
        rooms := rooms[id := Apply(rooms[id], Event(now, TickOp))];
        todo := todo - {id};
      }
    }

    method CollectDueLocked(now: int) returns (toPersist: seq<string>)
      ensures forall id :: id in toPersist <==> id in rooms && ShouldRetryPersist(rooms[id], now)
    {
      toPersist := [];
      var todo := rooms.Keys;
      while todo != {}
        invariant todo <= rooms.Keys
        invariant forall id :: id in toPersist <==> id in rooms && id !in todo && ShouldRetryPersist(rooms[id], now)
      {
        var id :| id in todo;
        if rooms[id].phase.Finishing? && now - rooms[id].lastPersist >= RESULT_RETRY_MS {
          toPersist := toPersist + [id];
        }
        todo := todo - {id};
      }
    }

    method SnapshotIfDueLocked(room: Room, now: int) returns (rec: Option<Record>)
      requires TwoSeats(room)
      modifies this`snapshotState
      ensures snapshotState == old(snapshotState)[room.matchId := NextSchedule(old(snapshotState), room, now)]
      ensures rec == if IsDue(old(snapshotState), room, now) then Some(RecordOf(room, now)) else None
    {
      var state := if room.matchId in snapshotState then snapshotState[room.matchId] else Schedule(0, Created, false);
      snapshotState := snapshotState[room.matchId := state];
      if !ShouldSnapshot(state, room.phase, now) {
        return None;
      }
      snapshotState := snapshotState[room.matchId := Schedule(now, room.phase, true)];
      return Some(RecordOf(room, now));
    }

    /** Copies of the rooms whose snapshot is due; the writing is done without the lock. */
    method CollectSnapshotsLocked(now: int) returns (records: seq<Record>)
      requires Indexed(rooms, matchIndex) && AllTwoSeats(rooms)
      modifies this`snapshotState
      ensures snapshotState == DueAfter(old(Model()), now)
      ensures RecordsOf(records, rooms, matchIndex, old(snapshotState), now, matchIndex.Keys)
      ensures forall id :: id in rooms ==> HasFreshRow(snapshotState, rooms[id], now)
    {
      EveryRowIsFresh(Model(), now);
      ghost var before, due := snapshotState, DueAfter(Model(), now);
      records := [];
      var todo := rooms.Keys;
      ghost var done: set<string> := {};
      while todo != {}
        invariant todo <= rooms.Keys
        invariant DoneOutside(rooms, matchIndex, todo, done)
        invariant snapshotState == Merged(before, due, done)
        invariant RecordsOf(records, rooms, matchIndex, before, now, done)
      {
        var id :| id in todo;
        ghost var k := rooms[id].matchId;
        OneMoreDone(rooms, matchIndex, todo, done, id);
        MergedStep(before, due, done, k);
        MoreRecords(records, rooms, matchIndex, before, now, done, id);
        var rec := SnapshotIfDueLocked(rooms[id], now);
        assert due[k] == NextSchedule(before, rooms[id], now);
        if rec.Some? {
          records := records + [rec.value];
        }
        done, todo := done + {k}, todo - {id};
      }
      AllDone(rooms, matchIndex, done);
      assert snapshotState == due;
    }

    /** Everything a tick does under the lock before it writes anything. */
    method Tick(now: int) returns (toPersist: seq<string>, records: seq<Record>)
      requires Valid()
      modifies this`rooms, this`matchIndex, this`snapshotState
      ensures Valid()
      ensures Model() == LockedTick(old(Model()), now)
      ensures forall id :: id in toPersist <==>
        id in Ticked(old(Model()), now).rooms && ShouldRetryPersist(Ticked(old(Model()), now).rooms[id], now)
      ensures var m := Ticked(old(Model()), now);
        && AllTwoSeats(m.rooms) && Indexed(m.rooms, m.index)
        && RecordsOf(records, m.rooms, m.index, m.due, now, m.index.Keys)
      ensures forall id :: id in rooms ==> HasFreshRow(snapshotState, rooms[id], now)
    {
      TickedKeepsInverse(Model(), now);
      toPersist, records := TickLocked(now);
    }

    method TickLocked(now: int) returns (toPersist: seq<string>, records: seq<Record>)
      requires AllTwoSeats(rooms)
      requires var ticked := ApplyAll(rooms, Event(now, TickOp)); AllTwoSeats(ticked) && Indexed(ticked, matchIndex)
      modifies this`rooms, this`matchIndex, this`snapshotState
      ensures var m := old(Model()).(rooms := ApplyAll(old(rooms), Event(now, TickOp)));
        && Model() == Reap(m.(due := DueAfter(m, now)), now)
        && (forall id :: id in toPersist <==> id in m.rooms && ShouldRetryPersist(m.rooms[id], now))
        && RecordsOf(records, m.rooms, m.index, m.due, now, m.index.Keys)
      ensures forall id :: id in rooms ==> HasFreshRow(snapshotState, rooms[id], now)
    {
      TickRoomsLocked(now);
      toPersist := CollectDueLocked(now);
      records := CollectSnapshotsLocked(now);
      ReapKeepsFreshRows(Model(), now);
      ReapExpiredLocked(now);
    }

    // ---------------------------------------------------------------- queries

    method LookUpLocked(matchId: string) returns (answer: Lookup)
      ensures answer == LookUp(Model(), matchId)
    {
      if matchId in matchIndex {
        if matchIndex[matchId] in rooms {
          match rooms[matchIndex[matchId]].phase {
            case Finishing => return Pending;
            case Aborted => return NotFound;
            case Finished => return AskTable;
            case _ => return NotFound;
          }
        }
      }
      return AskTable;
    }

    /** What GetResult decides under the lock. */
    method GetResultLocked(matchId: string, now: int) returns (answer: Lookup)
      requires Valid()
      modifies this`rooms, this`matchIndex, this`snapshotState
      ensures Valid()
      ensures Model() == if ValidId(matchId) then Reap(old(Model()), now) else old(Model())
      ensures answer == if ValidId(matchId) then LookUp(Model(), matchId) else NotFound
    {
      if |matchId| == 0 || |matchId| > MAX_ID_LENGTH {
        return NotFound;
      }
      ReapKeepsInverse(Model(), now);
      ReapExpiredLocked(now);
      answer := LookUpLocked(matchId);
    }

    method GetSnapshotsSince(id: string, since: int, now: int) returns (w: Option<Window>)
      requires Valid()
      modifies this`rooms, this`matchIndex, this`snapshotState
      ensures Valid() && Model() == Reap(old(Model()), now)
      ensures w.Some? <==> id in rooms
      ensures w.Some? ==> Ring(rooms[id].log) != [] && w.value == WindowOf(Ring(rooms[id].log), rooms[id].frame, since)
    {
      ReapKeepsInverse(Model(), now);
      ReapExpiredLocked(now);
      if id !in rooms {
        return None;
      }
      RingSteps(rooms[id].log);
      return Some(WindowOf(Ring(rooms[id].log), rooms[id].frame, since));
    }

    // ---------------------------------------------------------------- shutting down

    /** Shutdown: games without a verdict are aborted and recorded as such, decided ones keep theirs. */
    method AbortUnfinishedGames(now: int) returns (records: seq<Record>)
      requires Valid()
      modifies this`rooms, this`snapshotState
      ensures Valid()
      ensures Model() == AfterAbort(old(Model()), now)
      ensures |records| == |UnfinishedIds(old(rooms))|
      ensures AllTwoSeats(rooms) && RecordsFor(UnfinishedIds(old(rooms)), rooms, now) == Elems(records)
    {
      AfterAbortKeepsInverse(Model(), now);
      records := AbortAllLocked(now);
    }

    method AbortAllLocked(now: int) returns (records: seq<Record>)
      requires AllTwoSeats(rooms)
      modifies this`rooms, this`snapshotState
      ensures Model() == AfterAbort(old(Model()), now)
      ensures |records| == |UnfinishedIds(old(rooms))|
      ensures AllTwoSeats(rooms) && RecordsFor(UnfinishedIds(old(rooms)), rooms, now) == Elems(records)
    {
      ghost var before, schedules := rooms, snapshotState;
      records := AbortRoomsLocked(now);
      AllAborted(before, schedules, now, rooms, snapshotState, records);
    }

    method AbortRoomsLocked(now: int) returns (records: seq<Record>)
      requires AllTwoSeats(rooms)
      modifies this`rooms, this`snapshotState
      ensures AbortedOutside(old(rooms), old(snapshotState), {}, now, rooms, snapshotState, records)
    {
      ghost var before, schedules := rooms, snapshotState;
      NothingAborted(before, schedules, now);
      records := [];
      var todo := rooms.Keys;
      while todo != {}
        invariant todo <= before.Keys
        invariant AbortedOutside(before, schedules, todo, now, rooms, snapshotState, records)
      {
        var id :| id in todo;
        ghost var rooms0, due0 := rooms, snapshotState;
        SameRoom(before, schedules, todo, now, rooms, snapshotState, records, id);
        var rec := AbortRoomLocked(id, now);
        AbortOneMore(before, schedules, todo, now, rooms0, due0, records, id, rooms, snapshotState, rec);
        records := records + if rec.Some? then [rec.value] else [];
        todo := todo - {id};
      }
    }

    method AbortRoomLocked(id: string, now: int) returns (rec: Option<Record>)
      requires id in rooms && TwoSeats(rooms[id])
      modifies this`rooms, this`snapshotState
      ensures AbortedOne(old(rooms), old(snapshotState), id, now, rooms, snapshotState, rec)
    {
      var room := rooms[id];
      if room.phase != Created && room.phase != Waiting && room.phase != Playing {
        return None;
      }
      room := Abort(room, now);
      rooms := rooms[id := room];
      snapshotState := snapshotState[room.matchId := Schedule(now, room.phase, true)];
      return Some(RecordOf(room, now));
    }

    // ---------------------------------------------------------------- restoring

    /** Rebuild the rooms of the usable rows; an id or match already present is left as it is. `loaded` is
        what the reader gave, or nothing if it failed; `writeBack` is what is to be written over the rows
        that were refused. */
    method Restore(loaded: Option<seq<ReadRow>>, now: int) returns (report: RestoreReport, writeBack: seq<Record>)
      requires Valid()
      modifies this`rooms, this`matchIndex
      ensures loaded.None? ==> Model() == old(Model()) && writeBack == [] && report == RestoreReport(true, 0, 0, 0)
      ensures loaded.Some? ==>
        && Model() == RestoreRows(old(Model()), loaded.value, now)
        && writeBack == RefusedRecords(loaded.value, now)
        && report == RestoreReport(false, |loaded.value|, report.restored, |writeBack|)
        && |rooms| == |old(rooms)| + report.restored
      ensures (loaded.Some? ==> HonestRows(loaded.value, now)) ==> Valid()
    {
      if loaded.None? {
        return RestoreReport(true, 0, 0, 0), [];
      }
      if HonestRows(loaded.value, now) {
        RestoreRowsKeepsInverse(Model(), loaded.value, now);
      }
      var restored: nat;
      restored, writeBack := RestoreLocked(loaded.value, now);
      report := RestoreReport(false, |loaded.value|, restored, |writeBack|);
    }

    method RestoreLocked(rows: seq<ReadRow>, now: int) returns (restored: nat, writeBack: seq<Record>)
      modifies this`rooms, this`matchIndex
      ensures Model() == RestoreRows(old(Model()), rows, now)
      ensures writeBack == RefusedRecords(rows, now)
      ensures |this.rooms| == |old(this.rooms)| + restored
    {
      restored, writeBack := 0, [];
      var i := 0;
      assert rows[0..] == rows && rows[..0] == [];
      while i < |rows|
        invariant 0 <= i <= |rows|
        invariant RestoreRows(Model(), rows[i..], now) == RestoreRows(old(Model()), rows, now)
        invariant writeBack == RefusedRecords(rows[..i], now)
        invariant |this.rooms| == |old(this.rooms)| + restored
      {
        assert rows[i..][0] == rows[i] && rows[i..][1..] == rows[i + 1..];
        assert rows[..i + 1] == rows[..i] + [rows[i]];
        RefusedMore(rows[..i], rows[i], now);
        var ok, isNew := RestoreRowLocked(rows[i], now);
        if !ok {
          writeBack := writeBack + [Refused(rows[i].rec, now)];
        }
        if isNew {
          restored := restored + 1;
        }
        i := i + 1;
      }
      assert rows[..i] == rows;
    }

    method RestoreRowLocked(row: ReadRow, now: int) returns (ok: bool, isNew: bool)
      modifies this`rooms, this`matchIndex
      ensures Model() == RestoreRow(old(Model()), row, now)
      ensures ok <==> !Rejected(row, now)
      ensures |rooms| == |old(rooms)| + if isNew then 1 else 0
    {
      if row.Unusable? {
        return false, false;
      }
      var restored := RestoreFrom(row.rec, now);
      if restored.None? {
        return false, false;
      }
      var room := restored.value;
      if room.roomId in rooms || room.matchId in matchIndex {
        return true, false;
      }
      rooms := rooms[room.roomId := room];
      matchIndex := matchIndex[room.matchId := room.roomId];
      return true, true;
    }
  }

  function Marking(ok: bool, now: int): Event {
    Event(now, if ok then PersistedOp else PersistFailedOp)
  }

  lemma MarkingDecides(r: Room, ok: bool, now: int)
    requires RoomOk(r)
    ensures var q := Apply(r, Marking(ok, now));
      if r.phase.Finishing? then q == (if ok then r.(phase := Finished) else r.(lastPersist := now)) else q == r
  {
  }

  /** One record for each match in `done` whose snapshot is due, and no other. */
  ghost predicate RecordsOf(records: seq<Record>, rooms: map<string, Room>, index: map<string, string>,
                            due: map<string, Schedule>, now: int, done: set<string>)
    requires Indexed(rooms, index) && AllTwoSeats(rooms)
  {
    && (forall k :: k in done && k in index && IsDue(due, rooms[index[k]], now) ==>
          RecordOf(rooms[index[k]], now) in records)
    && (forall rec :: rec in records ==>
          && rec.matchId in done && rec.matchId in index
          && IsDue(due, rooms[index[rec.matchId]], now)
          && rec == RecordOf(rooms[index[rec.matchId]], now))
  }

  /** `done` is the matches of the rooms not in `todo`. */
  ghost predicate DoneOutside(rooms: map<string, Room>, index: map<string, string>, todo: set<string>,
                              done: set<string>) {
    done <= index.Keys && forall id :: id in rooms ==> (rooms[id].matchId in done <==> id !in todo)
  }

  lemma OneMoreDone(rooms: map<string, Room>, index: map<string, string>, todo: set<string>, done: set<string>,
                    id: string)
    requires Indexed(rooms, index) && DoneOutside(rooms, index, todo, done) && id in todo && id in rooms
    ensures var k := rooms[id].matchId;
      && k in index && index[k] == id && k !in done
      && DoneOutside(rooms, index, todo - {id}, done + {k})
  {
  }

  lemma AllDone(rooms: map<string, Room>, index: map<string, string>, done: set<string>)
    requires Indexed(rooms, index) && DoneOutside(rooms, index, {}, done)
    ensures done == index.Keys
  {
  }

  ghost function RecordsFor(ids: set<string>, rooms: map<string, Room>, now: int): set<Record>
    requires ids <= rooms.Keys && AllTwoSeats(rooms)
  {
    set id | id in ids :: RecordOf(rooms[id], now)
  }

  lemma RecordsForMore(ids: set<string>, rooms: map<string, Room>, now: int, id: string)
    requires ids <= rooms.Keys && AllTwoSeats(rooms) && id in rooms
    ensures RecordsFor(ids + {id}, rooms, now) == RecordsFor(ids, rooms, now) + {RecordOf(rooms[id], now)}
  {
  }

  /** The rooms in `gone` are as in `after`, are marked as written, and have one record each. */
  ghost predicate AbortedSoFar(before: map<string, Room>, after: map<string, Room>, schedules: map<string, Schedule>,
                               gone: set<string>, todo: set<string>, now: int,
                               rooms: map<string, Room>, due: map<string, Schedule>, records: seq<Record>)
    requires before.Keys == after.Keys && gone <= before.Keys && AllTwoSeats(after)
  {
    && rooms == Mixed(before, after, todo)
    && due == MarkedAborted(schedules, MatchesOf(before, gone), now)
    && |records| == |gone|
    && Elems(records) == RecordsFor(gone, after, now)
  }

  lemma AbortMore(before: map<string, Room>, after: map<string, Room>, schedules: map<string, Schedule>,
                  gone: set<string>, todo: set<string>, now: int,
                  rooms: map<string, Room>, due: map<string, Schedule>, records: seq<Record>, id: string)
    requires before.Keys == after.Keys && gone <= before.Keys && AllTwoSeats(after)
    requires AbortedSoFar(before, after, schedules, gone, todo, now, rooms, due, records)
    requires id in todo && id in before && id !in gone
    ensures AbortedSoFar(before, after, schedules, gone + {id}, todo - {id}, now, rooms[id := after[id]],
                         due[before[id].matchId := Schedule(now, Aborted, true)],
                         records + [RecordOf(after[id], now)])
  {
    MixedStep(before, after, todo, id);
    RecordsForMore(gone, after, now, id);
    MatchesOfMore(before, gone, id);
    MarkedMore(schedules, MatchesOf(before, gone), now, before[id].matchId);
    ElemsMore(records, RecordOf(after[id], now));
  }

  /** The rooms outside `todo` have been aborted if they needed to be. */
  ghost predicate AbortedOutside(before: map<string, Room>, schedules: map<string, Schedule>, todo: set<string>,
                                 now: int,
                                 rooms: map<string, Room>, due: map<string, Schedule>, records: seq<Record>)
    requires AllTwoSeats(before)
  {
    AbortedHaveTwoSeats(before, now);
    AbortedSoFar(before, AbortedRooms(before, now), schedules, UnfinishedIds(before) - todo, todo, now, rooms, due,
                 records)
  }

  lemma NothingAborted(before: map<string, Room>, schedules: map<string, Schedule>, now: int)
    requires AllTwoSeats(before)
    ensures AbortedOutside(before, schedules, before.Keys, now, before, schedules, [])
  {
    MixedEnds(before, AbortedRooms(before, now));
    assert UnfinishedIds(before) - before.Keys == {};
  }

  lemma AllAborted(before: map<string, Room>, schedules: map<string, Schedule>, now: int,
                   rooms: map<string, Room>, due: map<string, Schedule>, records: seq<Record>)
    requires AllTwoSeats(before)
    requires AbortedOutside(before, schedules, {}, now, rooms, due, records)
    ensures rooms == AbortedRooms(before, now) && AllTwoSeats(rooms)
    ensures due == MarkedAborted(schedules, MatchesOf(before, UnfinishedIds(before)), now)
    ensures |records| == |UnfinishedIds(before)|
    ensures Elems(records) == RecordsFor(UnfinishedIds(before), rooms, now)
  {
    AbortedHaveTwoSeats(before, now);
    MixedEnds(before, AbortedRooms(before, now));
    assert UnfinishedIds(before) - {} == UnfinishedIds(before);
  }

  ghost predicate AbortedOne(rooms: map<string, Room>, due: map<string, Schedule>, id: string, now: int,
                             rooms': map<string, Room>, due': map<string, Schedule>, rec: Option<Record>)
    requires id in rooms && TwoSeats(rooms[id])
  {
    var r := rooms[id];
    if Over(r.phase) then rec.None? && rooms' == rooms && due' == due
    else
      && rooms' == rooms[id := Abort(r, now)]
      && due' == due[r.matchId := Schedule(now, Aborted, true)]
      && rec == Some(RecordOf(Abort(r, now), now))
  }

  lemma SameRoom(before: map<string, Room>, schedules: map<string, Schedule>, todo: set<string>, now: int,
                 rooms: map<string, Room>, due: map<string, Schedule>, records: seq<Record>, id: string)
    requires AllTwoSeats(before) && id in todo && id in before
    requires AbortedOutside(before, schedules, todo, now, rooms, due, records)
    ensures id in rooms && rooms[id] == before[id] && TwoSeats(rooms[id])
  {
    AbortedHaveTwoSeats(before, now);
    MixedStep(before, AbortedRooms(before, now), todo, id);
  }

  lemma AbortOneMore(before: map<string, Room>, schedules: map<string, Schedule>, todo: set<string>, now: int,
                     rooms: map<string, Room>, due: map<string, Schedule>, records: seq<Record>, id: string,
                     rooms': map<string, Room>, due': map<string, Schedule>, rec: Option<Record>)
    requires AllTwoSeats(before) && id in todo && id in before && id in rooms && rooms[id] == before[id]
    requires AbortedOutside(before, schedules, todo, now, rooms, due, records)
    requires AbortedOne(rooms, due, id, now, rooms', due', rec)
    ensures AbortedOutside(before, schedules, todo - {id}, now, rooms', due',
                           records + if rec.Some? then [rec.value] else [])
  {
    var after, gone := AbortedRooms(before, now), UnfinishedIds(before) - todo;
    AbortedHaveTwoSeats(before, now);
    UnfinishedMore(before, todo, id);
    if Over(before[id].phase) {
      MixedStep(before, after, todo, id);
      assert records + [] == records;
    } else {
      AbortMore(before, after, schedules, gone, todo, now, rooms, due, records, id);
    }
  }

  lemma MoreRecords(records: seq<Record>, rooms: map<string, Room>, index: map<string, string>,
                    due: map<string, Schedule>, now: int, done: set<string>, id: string)
    requires Indexed(rooms, index) && AllTwoSeats(rooms) && id in rooms
    requires RecordsOf(records, rooms, index, due, now, done)
    ensures var more := if IsDue(due, rooms[id], now) then records + [RecordOf(rooms[id], now)] else records;
      RecordsOf(more, rooms, index, due, now, done + {rooms[id].matchId})
  {
  }
}
