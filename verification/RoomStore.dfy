/** Room snapshots as rows of the rooms table: what is written, what is accepted back, what is rebuilt. */
module RoomStore {
  import opened Wrappers
  import opened RoomCore
  import opened RoomRuns

  datatype PlayerRow = PlayerRow(id: string, hp: int, joined: bool)

  datatype Record = Record(
    matchId: string, roomId: string, phase: Phase, frame: int, players: seq<PlayerRow>,
    winner: string, reason: Reason, startedAt: int, finishedAt: int, snapshotAt: int)

  function PlayerRowOf(p: Player): PlayerRow {
    PlayerRow(p.id, p.hp, p.joined)
  }

  function RecordOf(r: Room, now: int): Record
    requires TwoSeats(r)
  {
    Record(r.matchId, r.roomId, r.phase, r.frame, [PlayerRowOf(r.players[0]), PlayerRowOf(r.players[1])],
           r.winner, r.reason, r.startedAt, r.finishedAt, now)
  }

  // ------------------------------------------------------------------ the columns that are text

  function PhaseText(p: Phase): string {
    match p
    case Created => "created"
    case Waiting => "waiting"
    case Playing => "playing"
    case Finishing => "finishing"
    case Finished => "finished"
    case Aborted => "aborted"
  }

  function ParsePhase(s: string): Option<Phase> {
    if s == "created" then Some(Created)
    else if s == "waiting" then Some(Waiting)
    else if s == "playing" then Some(Playing)
    else if s == "finishing" then Some(Finishing)
    else if s == "finished" then Some(Finished)
    else if s == "aborted" then Some(Aborted)
    else None
  }

  function ReasonText(r: Reason): string {
    match r
    case NoReason => "none"
    case HpZero => "hp_zero"
    case TimeUp => "timeout"
    case Scrapped => "aborted"
    case Disconnect => "disconnect"
  }

  /** There is no case for "disconnect". */
  function ParseReason(s: string): Option<Reason> {
    if s == "none" then Some(NoReason)
    else if s == "hp_zero" then Some(HpZero)
    else if s == "timeout" then Some(TimeUp)
    else if s == "aborted" then Some(Scrapped)
    else None
  }

  // ------------------------------------------------------------------ validation

  datatype Problem =
    | UnknownState | UnknownReason
    | BadMatchId | BadRoomId | BadFrame | BadTime | BadPlayerId(seat: nat) | BadHp(seat: nat)
    | SamePlayerTwice | NobodyJoined | StrangeWinner | EndedWithoutReason

  function PlayerProblem(p: PlayerRow, seat: nat): Option<Problem> {
    if !ValidId(p.id) then Some(BadPlayerId(seat))
    else if p.hp < 0 || p.hp > INITIAL_HP then Some(BadHp(seat))
    else None
  }

  function Validate(rec: Record): Option<Problem>
    requires |rec.players| == 2
  {
    var a, b := rec.players[0], rec.players[1];
    if !ValidId(rec.matchId) then Some(BadMatchId)
    else if !ValidId(rec.roomId) then Some(BadRoomId)
    else if rec.frame < 0 || rec.frame > MAX_FRAMES then Some(BadFrame)
    else if rec.startedAt < 0 || rec.finishedAt < 0 then Some(BadTime)
    else if PlayerProblem(a, 1).Some? then PlayerProblem(a, 1)
    else if PlayerProblem(b, 2).Some? then PlayerProblem(b, 2)
    else if a.id == b.id then Some(SamePlayerTwice)
    else if (rec.phase.Playing? || rec.phase.Finishing?) && !a.joined && !b.joined then Some(NobodyJoined)
    else if rec.winner != "" && rec.winner != a.id && rec.winner != b.id then Some(StrangeWinner)
    else if (rec.phase.Finished? || rec.phase.Aborted?) && rec.reason == NoReason then Some(EndedWithoutReason)
    else None
  }

  /** A stored row: the record with phase and reason as text. */
  datatype Row = Row(rec: Record, state: string, finishReason: string)

  function Stored(rec: Record): Row {
    Row(rec, PhaseText(rec.phase), ReasonText(rec.reason))
  }

  datatype ReadRow = Usable(rec: Record) | Unusable(rec: Record, problem: Problem)

  function ReadBack(row: Row): ReadRow
    requires |row.rec.players| == 2
  {
    match ParsePhase(row.state)
    case None => Unusable(row.rec, UnknownState)
    case Some(phase) =>
      match ParseReason(row.finishReason)
      case None => Unusable(row.rec, UnknownReason)
      case Some(reason) =>
        var rec := row.rec.(phase := phase, reason := reason);
        match Validate(rec)
        case Some(p) => Unusable(rec, p)
        case None => Usable(rec)
  }

  /** What is written over a row that cannot be restored. */
  function Refused(rec: Record, now: int): Record {
    rec.(phase := Aborted, reason := Scrapped, winner := "", snapshotAt := now)
  }

  // ------------------------------------------------------------------ restoring

  function SeatFrom(p: PlayerRow): Player {
    Player(p.id, p.hp, p.joined, true)
  }

  predicate Restorable(rec: Record) {
    && |rec.players| == 2
    && rec.players[0].id != "" && rec.players[1].id != ""
    && rec.players[0].id != rec.players[1].id
  }

  /** Both players count as online, downtime frames are dropped, a pending result is due at once. */
  function RestoreFrom(rec: Record, now: int): Option<Room> {
    if !Restorable(rec) then None
    else
      Some(Push(Room(
        rec.roomId, rec.matchId, rec.phase, rec.reason, rec.frame,
        [SeatFrom(rec.players[0]), SeatFrom(rec.players[1])],
        [Runtime(true, 0), Runtime(true, 0)], [false, false],
        if rec.snapshotAt > 0 then rec.snapshotAt else now,
        rec.startedAt, rec.finishedAt, now, now - RESULT_RETRY_MS, rec.winner, 2, [])))
  }

  /** A row says what the room is, and when it was taken. */
  lemma RowSaysWhatTheRoomIs(r: Room, now: int)
    requires TwoSeats(r)
    ensures var rec := RecordOf(r, now);
      && rec.matchId == r.matchId && rec.roomId == r.roomId && rec.phase == r.phase && rec.frame == r.frame
      && rec.winner == r.winner && rec.reason == r.reason && rec.snapshotAt == now
      && rec.startedAt == r.startedAt && rec.finishedAt == r.finishedAt && |rec.players| == 2
      && forall i :: 0 <= i < 2 ==>
           && rec.players[i].id == r.players[i].id && rec.players[i].hp == r.players[i].hp
           && rec.players[i].joined == r.players[i].joined
  {
  }

  predicate InTheRow(p: PlayerRow) {
    1 <= |p.id| <= 64 && 0 <= p.hp <= 100
  }

  predicate HasEnded(phase: Phase) {
    phase.Finished? || phase.Aborted?
  }

  /** Exactly which rows are accepted: ids of 1 to 64 characters, 0 to 600 frames, hp from 0 to 100, no
      negative moments, two different players, somebody there once the game is on, a winner who plays, and
      an end with a reason. */
  lemma RowAcceptedIff(rec: Record)
    requires |rec.players| == 2
    ensures var a, b := rec.players[0], rec.players[1];
      Validate(rec).None? <==>
        && 1 <= |rec.matchId| <= 64 && 1 <= |rec.roomId| <= 64 && 0 <= rec.frame <= 600
        && rec.startedAt >= 0 && rec.finishedAt >= 0 && InTheRow(a) && InTheRow(b) && a.id != b.id
        && (rec.phase.Playing? || rec.phase.Finishing? ==> a.joined || b.joined)
        && rec.winner in {"", a.id, b.id}
        && (HasEnded(rec.phase) ==> rec.reason != NoReason)
  {
  }

  /** What a refusal says is true of the row. */
  lemma ProblemIsReal(rec: Record)
    requires |rec.players| == 2
    ensures match Validate(rec)
      case Some(BadMatchId) => !(1 <= |rec.matchId| <= 64)
      case Some(BadRoomId) => !(1 <= |rec.roomId| <= 64)
      case Some(BadFrame) => !(0 <= rec.frame <= 600)
      case Some(BadTime) => rec.startedAt < 0 || rec.finishedAt < 0
      case Some(BadPlayerId(seat)) => 1 <= seat <= 2 && !(1 <= |rec.players[seat - 1].id| <= 64)
      case Some(BadHp(seat)) => 1 <= seat <= 2 && !(0 <= rec.players[seat - 1].hp <= 100)
      case Some(SamePlayerTwice) => rec.players[0].id == rec.players[1].id
      case Some(NobodyJoined) => !rec.players[0].joined && !rec.players[1].joined
      case Some(StrangeWinner) => rec.winner !in {"", rec.players[0].id, rec.players[1].id}
      case Some(EndedWithoutReason) => HasEnded(rec.phase) && rec.reason == NoReason
      case Some(_) => false
      case None => true
  {
  }

  /** A room rebuilt from a row is what the row says, with both players there, nothing pending, and its next
      frame 100 ms from now; one still waiting for players goes on waiting from the moment of the row. */
  lemma RebuiltFromTheRow(rec: Record, now: int)
    requires |rec.players| == 2
    ensures var q := RestoreFrom(rec, now);
      && (q.Some? <==> rec.players[0].id != "" && rec.players[1].id != "" && rec.players[0].id != rec.players[1].id)
      && (q.Some? ==>
            && var r := q.value;
               && r.matchId == rec.matchId && r.roomId == rec.roomId && r.phase == rec.phase && r.frame == rec.frame
               && r.reason == rec.reason && r.winner == rec.winner && r.startedAt == rec.startedAt
               && r.finishedAt == rec.finishedAt && r.pending == [false, false] && r.lastTick == now
               && TwoSeats(r) && r.createdAt == (if rec.snapshotAt > 0 then rec.snapshotAt else now)
               && r.log == [SnapshotOf(r)] && now - r.lastPersist >= 1000
               && forall i :: 0 <= i < 2 ==>
                    && r.players[i].id == rec.players[i].id && r.players[i].hp == rec.players[i].hp
                    && r.players[i].joined == rec.players[i].joined
                    && r.players[i].online && r.runtime[i].online)
  {
  }

  /** The moments a room records are never negative if its events' are not. */
  predicate TimesOk(r: Room) {
    r.startedAt >= 0 && r.finishedAt >= 0
  }

  lemma {:induction false} AdvanceManyTimes(r: Room, n: nat, now: int)
    requires TwoSeats(r) && TimesOk(r) && now >= 0
    ensures TimesOk(AdvanceMany(r, n, now))
    ensures AdvanceMany(r, n, now).roomId == r.roomId && AdvanceMany(r, n, now).matchId == r.matchId
    decreases n
  {
    if n > 0 && r.phase.Playing? {
      AdvanceManyTimes(Advance(Stepped(r), now), n - 1, now);
    }
  }

  lemma StepTimes(r: Room, ev: Event)
    requires TwoSeats(r) && TimesOk(r) && ev.now >= 0
    ensures TimesOk(Apply(r, ev))
    ensures Apply(r, ev).roomId == r.roomId && Apply(r, ev).matchId == r.matchId
  {
    if ev.op.TickOp? && r.phase.Playing? && !SomeoneOffline(r) && ev.now >= r.lastTick {
      AdvanceManyTimes(r.(lastTick := CatchUpBase(r, ev.now)), FramesTaken(r, ev.now), ev.now);
    }
  }

  lemma {:induction false} RunTimes(rooms: seq<Room>, evs: seq<Event>, k: nat)
    requires IsRun(rooms, evs) && k <= |evs| && TimesOk(rooms[0])
    requires forall i :: 0 <= i < |evs| ==> evs[i].now >= 0
    ensures TimesOk(rooms[k]) && rooms[k].roomId == rooms[0].roomId && rooms[k].matchId == rooms[0].matchId
  {
    if k > 0 {
      RunTimes(rooms, evs, k - 1);
      StepTimes(rooms[k - 1], evs[k - 1]);
    }
  }

  lemma RecordIsValid(r: Room, now: int)
    requires RoomOk(r) && TimesOk(r) && ValidId(r.roomId) && ValidId(r.matchId)
    ensures Validate(RecordOf(r, now)).None?
  {
  }

  /** Whatever happens to a fresh room, the row written for it passes validation. */
  lemma ReachableRecordsValid(rooms: seq<Room>, evs: seq<Event>, k: nat, now: int)
    requires IsRun(rooms, evs) && k <= |evs| && TimesOk(rooms[0])
    requires ValidId(rooms[0].roomId) && ValidId(rooms[0].matchId)
    requires forall i :: 0 <= i < |evs| ==> evs[i].now >= 0
    ensures TwoSeats(rooms[k]) && Validate(RecordOf(rooms[k], now)).None?
  {
    RunTimes(rooms, evs, k);
    RunKeepsOk(rooms, evs, k);
    RecordIsValid(rooms[k], now);
  }

  /** Restoring a room's record and recording the restored room gives the same record. */
  lemma RestoreRoundTrip(r: Room, at: int, now: int, later: int)
    requires RoomOk(r)
    ensures var q := RestoreFrom(RecordOf(r, at), now);
      && q.Some? && TwoSeats(q.value)
      && RecordOf(q.value, later) == RecordOf(r, at).(snapshotAt := later)
      && ResultOf(q.value) == ResultOf(r)
      && (q.value.phase.Finishing? ==> ShouldRetryPersist(q.value, now))
      && (RoomOk(q.value) <==> !(r.reason == Disconnect))
  {
    var q := RestoreFrom(RecordOf(r, at), now).value;
    assert SeatsOk(q) && LogOk(q);
  }

  /** A written row is read back, as the very record that was written, exactly when the game did not end
      by disconnection. */
  lemma ReadBackIffNotDisconnect(r: Room, now: int)
    requires RoomOk(r) && TimesOk(r) && ValidId(r.roomId) && ValidId(r.matchId)
    ensures ReadBack(Stored(RecordOf(r, now)))
      == if r.reason == Disconnect then Unusable(RecordOf(r, now), UnknownReason) else Usable(RecordOf(r, now))
  {
    RecordIsValid(r, now);
  }

  /** A tick that decides a game by disconnection leaves a row the next start refuses, so a result that
      was decided but not yet persisted is aborted by a restart. */
  lemma DisconnectVerdictIsLost(r: Room, now: int)
    requires RoomOk(r) && r.phase.Playing? && r.players[0].online != r.players[1].online
    requires now - LatestOffline(r.runtime) >= RECONNECT_GRACE_MS
    ensures var q := Tick(r, now);
      && TwoSeats(q)
      && ResultOf(q).Some?
      && ResultOf(q).value.winner == (if r.players[0].online then r.players[0].id else r.players[1].id)
      && ReadBack(Stored(RecordOf(q, now))) == Unusable(RecordOf(q, now), UnknownReason)
  {
    TickKeepsOk(r, now);
    GraceVerdict(r, now);
  }

  /** Alice and bob play, alice leaves at 2000; at 32000 bob has won, and the row saying so cannot be read back. */
  const ALICE_LEAVES := [Event(1000, JoinOp("alice")), Event(1000, JoinOp("bob")),
                         Event(2000, PresenceOp("alice", false)),
                         Event(32000, TickOp)]

  lemma AliceSits(r: Room)
    requires r == NewRoom("r", "m", ["alice", "bob"], 1000)
    ensures RoomOk(r)
    ensures var q := Apply(r, Event(1000, JoinOp("alice")));
      && RoomOk(q) && q.phase.Waiting? && q.matchId == "m" && q.roomId == "r"
      && q.players == [Player("alice", 100, true, true), Player("bob", 100, false, true)]
      && q.runtime == [Runtime(true, 0), Runtime(true, 0)]
  {
    var ids := ["alice", "bob"];
    assert ids[0] == "alice" && ids[1] == "bob";
    NewRoomOk("r", "m", ids, 1000);
    assert r.players == [Player("alice", 100, false, true), Player("bob", 100, false, true)];
    ApplyKeepsOk(r, Event(1000, JoinOp("alice")));
  }

  lemma BobSits(r: Room)
    requires RoomOk(r) && r.phase.Waiting?
    requires r.players == [Player("alice", 100, true, true), Player("bob", 100, false, true)]
    requires r.runtime == [Runtime(true, 0), Runtime(true, 0)]
    ensures var q := Apply(r, Event(1000, JoinOp("bob")));
      && RoomOk(q) && q.phase.Playing? && q.matchId == r.matchId && q.roomId == r.roomId
      && q.players == [Player("alice", 100, true, true), Player("bob", 100, true, true)]
      && q.runtime == [Runtime(true, 0), Runtime(true, 0)]
  {
    var rest := [Player("bob", 100, false, true)];
    assert r.players[1..] == rest && SeatOf(rest, "bob") == Some(0);
    ApplyKeepsOk(r, Event(1000, JoinOp("bob")));
  }

  lemma AliceGoes(r: Room)
    requires RoomOk(r) && r.phase.Playing?
    requires r.players == [Player("alice", 100, true, true), Player("bob", 100, true, true)]
    requires r.runtime == [Runtime(true, 0), Runtime(true, 0)]
    ensures var q := Apply(r, Event(2000, PresenceOp("alice", false)));
      && RoomOk(q) && q.phase.Playing? && q.matchId == r.matchId && q.roomId == r.roomId
      && q.players == [Player("alice", 100, true, false), Player("bob", 100, true, true)]
      && q.runtime == [Runtime(false, 2000), Runtime(true, 0)]
  {
    ApplyKeepsOk(r, Event(2000, PresenceOp("alice", false)));
  }

  lemma BobWins(r: Room)
    requires RoomOk(r) && r.phase.Playing?
    requires r.players == [Player("alice", 100, true, false), Player("bob", 100, true, true)]
    requires r.runtime == [Runtime(false, 2000), Runtime(true, 0)]
    ensures var q := Apply(r, Event(32000, TickOp));
      && TwoSeats(q) && q.phase.Finishing? && q.matchId == r.matchId && q.roomId == r.roomId && q.winner == "bob"
      && ReadBack(Stored(RecordOf(q, 32000))) == Unusable(RecordOf(q, 32000), UnknownReason)
  {
    assert r.runtime[..1] == [Runtime(false, 2000)] && [Runtime(false, 2000)][..0] == [];
    DisconnectVerdictIsLost(r, 32000);
  }

  lemma FourEvents(r0: Room, r1: Room, r2: Room, r3: Room, r4: Room, a: Event, b: Event, c: Event, d: Event)
    requires RoomOk(r0) && TwoSeats(r0) && TwoSeats(r1) && TwoSeats(r2) && TwoSeats(r3)
    requires r1 == Apply(r0, a) && r2 == Apply(r1, b) && r3 == Apply(r2, c) && r4 == Apply(r3, d)
    ensures IsRun([r0, r1, r2, r3, r4], [a, b, c, d])
  {
  }

  lemma AliceLeftLosesBobsWin() returns (rooms: seq<Room>)
    ensures IsRun(rooms, ALICE_LEAVES) && rooms[0] == NewRoom("r", "m", ["alice", "bob"], 1000)
    ensures var q := rooms[4];
      && TwoSeats(q) && q.phase.Finishing? && q.matchId == "m" && q.roomId == "r" && q.winner == "bob"
      && ReadBack(Stored(RecordOf(q, 32000))) == Unusable(RecordOf(q, 32000), UnknownReason)
  {
    var r0 := NewRoom("r", "m", ["alice", "bob"], 1000);
    AliceSits(r0);
    var r1 := Apply(r0, Event(1000, JoinOp("alice")));
    BobSits(r1);
    var r2 := Apply(r1, Event(1000, JoinOp("bob")));
    AliceGoes(r2);
    var r3 := Apply(r2, Event(2000, PresenceOp("alice", false)));
    BobWins(r3);
    var r4 := Apply(r3, Event(32000, TickOp));
    FourEvents(r0, r1, r2, r3, r4, Event(1000, JoinOp("alice")), Event(1000, JoinOp("bob")),
               Event(2000, PresenceOp("alice", false)), Event(32000, TickOp));
    rooms := [r0, r1, r2, r3, r4];
  }
}
