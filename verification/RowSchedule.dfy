/** When the registry takes rows of its rooms, over any run. */
module RowSchedule {
  import opened Wrappers
  import opened RoomCore
  import opened RoomStore
  import opened ManagerCore
  import opened RegistryRuns

  /** The schedule remembers the moment and the phase of each last row, and nothing of rooms that are gone. */
  ghost predicate ScheduleIsTold(m: Manager, latest: map<string, Record>) {
    && latest.Keys <= m.index.Keys && m.due.Keys <= m.index.Keys
    && forall k :: k in m.index ==> RowIsTold(m.due, latest, k, m.index[k])
  }

  predicate RowIsTold(due: map<string, Schedule>, latest: map<string, Record>, k: string, id: string) {
    && (k in latest <==> k in due && due[k].written)
    && (k in latest ==>
          && latest[k].snapshotAt == due[k].lastWrite && latest[k].phase == due[k].lastPhase
          && latest[k].matchId == k && latest[k].roomId == id)
  }

  ghost predicate Told(g: Registry) {
    RegistryInv(g) && ScheduleIsTold(g.m, g.latest)
  }

  // ------------------------------------------------------------------ what a tick takes

  predicate Ended(phase: Phase) {
    phase.Finished? || phase.Aborted?
  }

  /** No row of the room yet, none for a second, or none in the phase it has ended in. */
  predicate RowWanted(latest: map<string, Record>, r: Room, now: int) {
    || r.matchId !in latest
    || now - latest[r.matchId].snapshotAt >= 1000
    || (Ended(r.phase) && latest[r.matchId].phase != r.phase)
  }

  lemma TickedIsTold(g: Registry, now: int)
    requires Told(g)
    ensures Inverse(Ticked(g.m, now)) && ScheduleIsTold(Ticked(g.m, now), g.latest)
  {
    TickedKeepsInverse(g.m, now);
  }

  lemma DueIffWanted(m: Manager, latest: map<string, Record>, id: string, now: int)
    requires Inverse(m) && ScheduleIsTold(m, latest) && id in m.rooms
    ensures id in DueIds(m, now) <==> RowWanted(latest, m.rooms[id], now)
  {
    assert m.rooms[id].matchId in m.index;
  }

  lemma TakenTells(m: Manager, latest: map<string, Record>, now: int)
    requires Inverse(m) && ScheduleIsTold(m, latest)
    requires forall id :: id in m.rooms ==> TwoSeats(m.rooms[id])
    ensures ScheduleIsTold(m.(due := DueAfter(m, now)), latest + RowsTaken(m, DueIds(m, now), now))
  {
    forall k | k in m.index
      ensures RowIsTold(DueAfter(m, now), latest + RowsTaken(m, DueIds(m, now), now), k, m.index[k])
    {
      OneRowTells(m, latest, now, k);
    }
  }

  lemma OneRowTells(m: Manager, latest: map<string, Record>, now: int, k: string)
    requires Inverse(m) && k in m.index && RowIsTold(m.due, latest, k, m.index[k])
    requires forall id :: id in m.rooms ==> TwoSeats(m.rooms[id])
    ensures RowIsTold(DueAfter(m, now), latest + RowsTaken(m, DueIds(m, now), now), k, m.index[k])
  {
    assert m.index[k] in m.rooms && m.rooms[m.index[k]].matchId == k;
    assert k in RowsTaken(m, DueIds(m, now), now) <==> IsDue(m.due, m.rooms[m.index[k]], now);
  }

  lemma ReapTells(m: Manager, latest: map<string, Record>, now: int)
    requires Inverse(m) && ScheduleIsTold(m, latest)
    ensures ScheduleIsTold(Reap(m, now), StillThere(latest, Reap(m, now)))
  {
  }

  lemma TickTells(g: Registry, now: int, lost: set<string>)
    requires Told(g) && Enabled(g, TickEv(now, lost))
    ensures Told(Step(g, TickEv(now, lost)))
  {
    TickKeepsRegistry(g, now, lost);
    TickedIsTold(g, now);
    TickedKeepsInverse(g.m, now);
    TakenTells(Ticked(g.m, now), g.latest, now);
    ReapTells(Ticked(g.m, now).(due := DueAfter(Ticked(g.m, now), now)), LatestAfterTick(g, now), now);
  }

  lemma AbortTells(g: Registry, now: int, lost: set<string>)
    requires Told(g) && Enabled(g, AbortEv(now, lost))
    ensures Told(Step(g, AbortEv(now, lost)))
  {
    AbortKeepsRegistry(g, now, lost);
    AfterAbortKeepsInverse(g.m, now);
    forall k | k in g.m.index
      ensures RowIsTold(AfterAbort(g.m, now).due, Step(g, AbortEv(now, lost)).latest, k, g.m.index[k])
    {
      OneAbortTells(g.m, g.latest, now, k);
    }
  }

  lemma OneAbortTells(m: Manager, latest: map<string, Record>, now: int, k: string)
    requires Inverse(m) && k in m.index && RowIsTold(m.due, latest, k, m.index[k])
    requires AllTwoSeats(AfterAbort(m, now).rooms)
    ensures var q := AfterAbort(m, now);
      RowIsTold(q.due, latest + RowsTaken(q, UnfinishedIds(m.rooms), now), k, m.index[k])
  {
    var id := m.index[k];
    assert id in m.rooms && m.rooms[id].matchId == k;
    assert k in MatchesOf(m.rooms, UnfinishedIds(m.rooms)) <==> id in UnfinishedIds(m.rooms);
  }

  lemma {:induction false} RestoredHaveNoSchedule(m: Manager, rows: seq<ReadRow>, now: int)
    ensures RestoreRows(m, rows, now).due == m.due
    decreases |rows|
  {
    if rows != [] {
      RestoredHaveNoSchedule(RestoreRow(m, rows[0], now), rows[1..], now);
    }
  }

  lemma CreateTells(g: Registry, matchId: string, ids: seq<string>, newId: string, now: int)
    requires Told(g) && Enabled(g, CreateEv(matchId, ids, newId, now))
    ensures Told(Step(g, CreateEv(matchId, ids, newId, now)))
  {
    CreateKeepsRegistry(g, matchId, ids, newId, now);
    NewRoomIsTold(g.m, g.latest, matchId, ids, newId, now);
  }

  lemma NewRoomIsTold(m: Manager, latest: map<string, Record>, matchId: string, ids: seq<string>, newId: string,
                      now: int)
    requires Inverse(m) && ScheduleIsTold(m, latest) && newId !in m.rooms
    ensures ScheduleIsTold(CreateRoom(m, matchId, ids, newId, now).0, latest)
  {
    if matchId !in m.index {
      assert m.index - {matchId} == m.index;
    }
  }

  lemma StepTells(g: Registry, ev: RegistryEvent)
    requires Told(g) && Enabled(g, ev)
    ensures Told(Step(g, ev))
  {
    StepKeepsInv(g, ev);
    match ev
    case CreateEv(matchId, ids, newId, now) => CreateTells(g, matchId, ids, newId, now);
    case TickEv(now, lost) => TickTells(g, now, lost);
    case LookUpEv(now) => ReapTells(g.m, g.latest, now);
    case AbortEv(now, lost) => AbortTells(g, now, lost);
    case CrashEv(rows, now) => RestoredHaveNoSchedule(EmptyManager, ReadAll(rows), now);
    case _ =>
  }

  lemma {:induction false} RunTells(g: Registry, evs: seq<RegistryEvent>)
    requires Told(g) && Legal(g, evs)
    ensures Told(Run(g, evs))
    decreases |evs|
  {
    if evs != [] {
      StepTells(g, evs[0]);
      RunTells(Step(g, evs[0]), evs[1..]);
    }
  }

  // ------------------------------------------------------------------ over any run

  lemma RowAfter(m: Manager, latest: map<string, Record>, now: int, id: string, lost: set<string>)
    requires Inverse(m) && ScheduleIsTold(m, latest) && id in m.rooms && AllTwoSeats(m.rooms)
    ensures var r := m.rooms[id];
      var rows := latest + RowsTaken(m, DueIds(m, now), now);
      && r.matchId in rows
      && (if RowWanted(latest, r, now) then
            && rows[r.matchId] == RecordOf(r, now)
            && (id !in lost ==> RecordOf(r, now) in RecordsAt(m.rooms, DueIds(m, now) - lost, now))
          else rows[r.matchId] == latest[r.matchId])
  {
    DueIffWanted(m, latest, id, now);
    assert m.rooms[id].matchId in m.index && m.index[m.rooms[id].matchId] == id;
  }

  /** What a tick takes and writes for the room that has become `r`. */
  ghost predicate TakesIffWanted(g: Registry, now: int, lost: set<string>, id: string, r: Room)
    requires RegistryInv(g) && now >= 0
  {
    var rows := LatestAfterTick(g, now);
    && TwoSeats(r) && r.matchId in rows
    && (if RowWanted(g.latest, r, now) then
          && rows[r.matchId] == RecordOf(r, now)
          && (id !in lost ==> RecordOf(r, now) in Step(g, TickEv(now, lost)).written)
        else rows[r.matchId] == g.latest[r.matchId])
  }

  lemma WrittenByTick(g: Registry, now: int, lost: set<string>, id: string)
    requires RegistryInv(g) && now >= 0 && id in Ticked(g.m, now).rooms && TwoSeats(Ticked(g.m, now).rooms[id])
    requires AllTwoSeats(Ticked(g.m, now).rooms)
    requires RecordOf(Ticked(g.m, now).rooms[id], now)
      in RecordsAt(Ticked(g.m, now).rooms, DueIds(Ticked(g.m, now), now) - lost, now)
    ensures RecordOf(Ticked(g.m, now).rooms[id], now) in Step(g, TickEv(now, lost)).written
  {
  }

  lemma OneTickTakes(g: Registry, now: int, lost: set<string>, id: string)
    requires Told(g) && now >= 0 && id in Ticked(g.m, now).rooms
    ensures TakesIffWanted(g, now, lost, id, Ticked(g.m, now).rooms[id])
  {
    TickedIsTold(g, now);
    TickedKeepsInverse(g.m, now);
    RowAfter(Ticked(g.m, now), g.latest, now, id, lost);
    if RowWanted(g.latest, Ticked(g.m, now).rooms[id], now) && id !in lost {
      WrittenByTick(g, now, lost, id);
    }
  }

  /** What a run leads to; its schedule tells the rows taken. */
  ghost function After(g: Registry, evs: seq<RegistryEvent>): (q: Registry)
    requires Told(g) && Legal(g, evs)
    ensures q == Run(g, evs) && Told(q)
  {
    RunTells(g, evs);
    Run(g, evs)
  }

  /** After any run, a tick takes a row of a room exactly if there is none yet, none for a second, or none
      in the phase the room has ended in. The row says what the room is at that moment, and is written
      unless the write fails; of every other room the row before stays the last. */
  lemma TickTakesIff(g: Registry, evs: seq<RegistryEvent>, now: int, lost: set<string>, id: string)
    requires Told(g) && Legal(g, evs) && now >= 0
    requires id in Ticked(After(g, evs).m, now).rooms
    ensures TakesIffWanted(After(g, evs), now, lost, id, Ticked(After(g, evs).m, now).rooms[id])
  {
    OneTickTakes(After(g, evs), now, lost, id);
  }

  /** After the tick the room has a row of the last second, and one that says so if it has ended. */
  ghost predicate IsFresh(before: Registry, now: int, id: string)
    requires RegistryInv(before) && now >= 0 && id in Ticked(before.m, now).rooms
  {
    var r := Ticked(before.m, now).rooms[id];
    var rows := LatestAfterTick(before, now);
    && r.matchId in rows
    && rows[r.matchId].matchId == r.matchId && rows[r.matchId].roomId == id
    && rows[r.matchId].snapshotAt > now - 1000
    && (r.phase.Finished? || r.phase.Aborted? ==> rows[r.matchId].phase == r.phase)
  }

  /** So it is for every room after every tick of every run. */
  lemma EveryRoomHasAFreshRow(g: Registry, evs: seq<RegistryEvent>, now: int, id: string)
    requires Told(g) && Legal(g, evs) && now >= 0
    requires id in Ticked(After(g, evs).m, now).rooms
    ensures IsFresh(After(g, evs), now, id)
  {
    TickTakesIff(g, evs, now, {}, id);
    TickedIsTold(After(g, evs), now);
  }

  lemma FirstIsTold()
    ensures Told(FIRST)
  {
  }

  /** And so from an empty registry and an empty table. */
  lemma FreshFromTheFirstStart(evs: seq<RegistryEvent>, now: int, id: string)
    requires now >= 0 && (FirstIsTold(); Legal(FIRST, evs) && id in Ticked(After(FIRST, evs).m, now).rooms)
    ensures IsFresh((FirstIsTold(); After(FIRST, evs)), now, id)
  {
    FirstIsTold();
    EveryRoomHasAFreshRow(FIRST, evs, now, id);
  }
}
