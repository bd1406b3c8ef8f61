/** The registry over any run, with any number of crashes: what its processes write is what they restart from. */
module RegistryRuns {
  import opened Wrappers
  import opened RoomCore
  import opened RoomStore
  import opened ManagerCore

  /** The process; the last row it has taken of each match's room; and every row that any process has
      written so far. The table holds some of them. */
  datatype Registry = Registry(m: Manager, latest: map<string, Record>, written: set<Record>)

  datatype RegistryEvent =
    | CreateEv(matchId: string, ids: seq<string>, newId: string, now: int)
    | DeliverEv(id: string, ev: Event)
    | TickEv(now: int, lost: set<string>)         // the rooms whose row, if taken, is not written
    | LookUpEv(now: int)
    | AbortEv(now: int, lost: set<string>)
    | CrashEv(rows: seq<Record>, now: int)        // and a start from these rows

  const EmptyManager := Manager(map[], map[], map[], false)

  ghost predicate Enabled(g: Registry, ev: RegistryEvent) {
    match ev
    case CreateEv(_, ids, newId, now) =>
      |ids| == 2 && ids[0] != ids[1] && newId !in g.m.rooms && |newId| <= MAX_ID_LENGTH && now >= 0
    case DeliverEv(id, e) => id in g.m.rooms && e.now >= 0
    case TickEv(now, _) => now >= 0
    case LookUpEv(_) => true
    case AbortEv(now, _) => now >= 0
    case CrashEv(rows, _) => forall rec :: rec in rows ==> rec in g.written
  }

  function RecordsAt(rooms: map<string, Room>, ids: set<string>, now: int): set<Record>
    requires ids <= rooms.Keys && forall id :: id in rooms ==> TwoSeats(rooms[id])
  {
    set id | id in ids :: RecordOf(rooms[id], now)
  }

  /** The same rows by match. */
  function RowsTaken(m: Manager, ids: set<string>, now: int): map<string, Record>
    requires forall id :: id in m.rooms ==> TwoSeats(m.rooms[id])
  {
    map k | k in m.index && m.index[k] in ids && m.index[k] in m.rooms :: RecordOf(m.rooms[m.index[k]], now)
  }

  function DueIds(m: Manager, now: int): set<string> {
    set id | id in m.rooms && IsDue(m.due, m.rooms[id], now)
  }

  /** Rows of matches that are still there. */
  function StillThere(latest: map<string, Record>, m: Manager): map<string, Record> {
    map k | k in latest && k in m.index :: latest[k]
  }

  function ReadAll(rows: seq<Record>): (r: seq<ReadRow>)
    requires forall rec :: rec in rows ==> |rec.players| == 2
    ensures |r| == |rows| && forall k :: 0 <= k < |r| ==> |rows[k].players| == 2 && r[k] == ReadBack(Stored(rows[k]))
  {
    seq(|rows|, k requires 0 <= k < |rows| => (assert rows[k] in rows; ReadBack(Stored(rows[k]))))
  }

  // ------------------------------------------------------------------ the invariant

  /** A row passes for the room: ids and times are in range. */
  predicate InRange(r: Room) {
    TimesOk(r) && ValidId(r.roomId) && ValidId(r.matchId)
  }

  ghost predicate AllInRange(rooms: map<string, Room>) {
    forall id :: id in rooms ==> InRange(rooms[id])
  }

  /** Some room in order had this row. */
  ghost predicate Honest(rec: Record) {
    exists r, at :: RowOf(rec, r, at)
  }

  ghost predicate RowOf(rec: Record, r: Room, at: int) {
    RoomOk(r) && InRange(r) && rec == RecordOf(r, at)
  }

  ghost predicate RegistryInv(g: Registry) {
    Inverse(g.m) && AllInRange(g.m.rooms) && forall rec :: rec in g.written ==> Honest(rec) && |rec.players| == 2
  }

  /** The last row taken of each match's room when a tick has taken its rows. */
  ghost function LatestAfterTick(g: Registry, now: int): map<string, Record>
    requires Inverse(g.m)
  {
    TickedKeepsInverse(g.m, now);
    var ticked := Ticked(g.m, now);
    g.latest + RowsTaken(ticked, DueIds(ticked, now), now)
  }

  ghost function Step(g: Registry, ev: RegistryEvent): Registry
    requires RegistryInv(g) && Enabled(g, ev)
  {
    match ev
    case CreateEv(matchId, ids, newId, now) => g.(m := CreateRoom(g.m, matchId, ids, newId, now).0)
    case DeliverEv(id, e) => g.(m := WithRoom(g.m, id, Apply(g.m.rooms[id], e)))
    case TickEv(now, lost) =>
      TickedKeepsInverse(g.m, now);
      Registry(LockedTick(g.m, now), StillThere(LatestAfterTick(g, now), LockedTick(g.m, now)),
               g.written + RecordsAt(Ticked(g.m, now).rooms, DueIds(Ticked(g.m, now), now) - lost, now))
    case LookUpEv(now) => g.(m := Reap(g.m, now), latest := StillThere(g.latest, Reap(g.m, now)))
    case AbortEv(now, lost) =>
      AfterAbortKeepsInverse(g.m, now);
      var q := AfterAbort(g.m, now);
      Registry(q, g.latest + RowsTaken(q, UnfinishedIds(g.m.rooms), now),
               g.written + RecordsAt(q.rooms, UnfinishedIds(g.m.rooms) - lost, now))
    case CrashEv(rows, now) => g.(m := RestoreRows(EmptyManager, ReadAll(rows), now), latest := map[])
  }

  // ------------------------------------------------------------------ every step keeps it

  lemma RowsOfRoomsAreHonest(rooms: map<string, Room>, ids: set<string>, now: int)
    requires AllOk(rooms) && AllInRange(rooms) && ids <= rooms.Keys
    ensures forall rec :: rec in RecordsAt(rooms, ids, now) ==> Honest(rec) && |rec.players| == 2
  {
    forall rec | rec in RecordsAt(rooms, ids, now) ensures Honest(rec) {
      var id :| id in ids && rec == RecordOf(rooms[id], now);
      assert RowOf(rec, rooms[id], now);
    }
  }

  lemma ApplyAllInRange(rooms: map<string, Room>, ev: Event)
    requires AllTwoSeats(rooms) && AllInRange(rooms) && ev.now >= 0
    ensures AllInRange(ApplyAll(rooms, ev))
  {
    forall id | id in rooms ensures InRange(Apply(rooms[id], ev)) {
      StepTimes(rooms[id], ev);
    }
  }

  lemma CreateKeepsRegistry(g: Registry, matchId: string, ids: seq<string>, newId: string, now: int)
    requires RegistryInv(g) && Enabled(g, CreateEv(matchId, ids, newId, now))
    ensures RegistryInv(Step(g, CreateEv(matchId, ids, newId, now)))
  {
    CreateKeepsInverse(g.m, matchId, ids, newId, now);
  }

  lemma TickKeepsRegistry(g: Registry, now: int, lost: set<string>)
    requires RegistryInv(g) && Enabled(g, TickEv(now, lost))
    ensures RegistryInv(Step(g, TickEv(now, lost)))
  {
    TickedKeepsInverse(g.m, now);
    ApplyAllInRange(g.m.rooms, Event(now, TickOp));
    RowsOfRoomsAreHonest(Ticked(g.m, now).rooms, DueIds(Ticked(g.m, now), now) - lost, now);
  }

  lemma AbortKeepsRegistry(g: Registry, now: int, lost: set<string>)
    requires RegistryInv(g) && Enabled(g, AbortEv(now, lost))
    ensures RegistryInv(Step(g, AbortEv(now, lost)))
  {
    AfterAbortKeepsInverse(g.m, now);
    AbortedRoomsIsAbortEvent(g.m.rooms, now);
    ApplyAllInRange(g.m.rooms, Event(now, AbortOp));
    RowsOfRoomsAreHonest(AfterAbort(g.m, now).rooms, UnfinishedIds(g.m.rooms) - lost, now);
  }

  /** A row some room had is refused, or gives a room in order. */
  lemma HonestRowReadsBack(rec: Record, now: int)
    requires Honest(rec) && |rec.players| == 2
    ensures var row := ReadBack(Stored(rec));
      !Rejected(row, now) ==> RoomOk(RestoreFrom(row.rec, now).value) && InRange(RestoreFrom(row.rec, now).value)
  {
    var r, at :| RowOf(rec, r, at);
    ReadBackIffNotDisconnect(r, at);
    RestoreRoundTrip(r, at, now, now);
  }

  lemma {:induction false} RestoreRowsInRange(m: Manager, rows: seq<ReadRow>, now: int)
    requires AllInRange(m.rooms)
    requires forall row :: row in rows && !Rejected(row, now) ==> InRange(RestoreFrom(row.rec, now).value)
    ensures AllInRange(RestoreRows(m, rows, now).rooms)
    decreases |rows|
  {
    if rows != [] {
      assert rows[0] in rows;
      assert forall row :: row in rows[1..] ==> row in rows;
      RestoreRowsInRange(RestoreRow(m, rows[0], now), rows[1..], now);
    }
  }

  lemma CrashKeepsRegistry(g: Registry, rows: seq<Record>, now: int)
    requires RegistryInv(g) && Enabled(g, CrashEv(rows, now))
    ensures RegistryInv(Step(g, CrashEv(rows, now)))
  {
    var read := ReadAll(rows);
    forall row | row in read && !Rejected(row, now)
      ensures RoomOk(RestoreFrom(row.rec, now).value) && InRange(RestoreFrom(row.rec, now).value)
    {
      var k :| 0 <= k < |read| && read[k] == row;
      assert rows[k] in rows;
      HonestRowReadsBack(rows[k], now);
    }
    RestoreRowsKeepsInverse(EmptyManager, read, now);
    RestoreRowsInRange(EmptyManager, read, now);
  }

  lemma DeliverKeepsRegistry(g: Registry, id: string, e: Event)
    requires RegistryInv(g) && Enabled(g, DeliverEv(id, e))
    ensures RegistryInv(Step(g, DeliverEv(id, e)))
  {
    RoomEventKeepsInverse(g.m, id, e);
    StepTimes(g.m.rooms[id], e);
  }

  lemma StepKeepsInv(g: Registry, ev: RegistryEvent)
    requires RegistryInv(g) && Enabled(g, ev)
    ensures RegistryInv(Step(g, ev))
  {
    match ev
    case CreateEv(matchId, ids, newId, now) => CreateKeepsRegistry(g, matchId, ids, newId, now);
    case DeliverEv(id, e) => DeliverKeepsRegistry(g, id, e);
    case TickEv(now, lost) => TickKeepsRegistry(g, now, lost);
    case LookUpEv(now) => ReapKeepsInverse(g.m, now);
    case AbortEv(now, lost) => AbortKeepsRegistry(g, now, lost);
    case CrashEv(rows, now) => CrashKeepsRegistry(g, rows, now);
  }

  // ------------------------------------------------------------------ runs

  ghost predicate Legal(g: Registry, evs: seq<RegistryEvent>)
    requires RegistryInv(g)
    decreases |evs|
  {
    evs == [] || (Enabled(g, evs[0]) && (StepKeepsInv(g, evs[0]); Legal(Step(g, evs[0]), evs[1..])))
  }

  ghost function Run(g: Registry, evs: seq<RegistryEvent>): Registry
    requires RegistryInv(g) && Legal(g, evs)
    decreases |evs|
  {
    if evs == [] then g else (StepKeepsInv(g, evs[0]); Run(Step(g, evs[0]), evs[1..]))
  }

  /** Through any run and any number of crashes, each followed by a start from any of the rows ever written:
      the two tables are inverse to each other and every room is in order, and every row passes validation. */
  lemma {:induction false} RegistryStaysInOrder(g: Registry, evs: seq<RegistryEvent>)
    requires RegistryInv(g) && Legal(g, evs)
    ensures var q := Run(g, evs);
      && Inverse(q.m)
      && forall rec :: rec in q.written ==> |rec.players| == 2 && Validate(rec).None?
    decreases |evs|
  {
    if evs == [] {
      forall rec | rec in g.written ensures Validate(rec).None? {
        var r, at :| RowOf(rec, r, at);
        RecordIsValid(r, at);
      }
    } else {
      StepKeepsInv(g, evs[0]);
      RegistryStaysInOrder(Step(g, evs[0]), evs[1..]);
    }
  }

  const FIRST := Registry(EmptyManager, map[], {})

  lemma FirstIsInOrder()
    ensures RegistryInv(FIRST)
  {
  }

  /** So it is from an empty registry and an empty table. */
  lemma InOrderFromTheFirstStart(evs: seq<RegistryEvent>)
    requires (FirstIsInOrder(); Legal(FIRST, evs))
    ensures var q := (FirstIsInOrder(); Run(FIRST, evs));
      Inverse(q.m) && forall rec :: rec in q.written ==> |rec.players| == 2 && Validate(rec).None?
  {
    FirstIsInOrder();
    RegistryStaysInOrder(FIRST, evs);
  }
}
