/** One battle room as a value: what each operation of `battle_room.cpp` does to it.

    The value keeps every snapshot the room ever recorded (`log`); the class keeps the last 128. */
module RoomCore {
  import opened Wrappers

  const PLAYERS_PER_ROOM := 2
  const INITIAL_HP := 100
  const ATTACK_DAMAGE := 10
  const FRAME_MS := 100
  const MAX_FRAMES := 600
  const MAX_CATCH_UP := 10
  const RESULT_RETRY_MS := 1000
  const WAITING_TIMEOUT_MS := 30000
  const RETENTION_MS := 300000
  const HISTORY := 128
  const RECONNECT_GRACE_MS := 30000

  datatype Phase = Created | Waiting | Playing | Finishing | Finished | Aborted

  datatype Reason = NoReason | HpZero | TimeUp | Scrapped | Disconnect

  datatype Player = Player(id: string, hp: int, joined: bool, online: bool)

  datatype Runtime = Runtime(online: bool, offlineSince: int)

  datatype Snapshot = Snapshot(
    roomId: string, matchId: string, phase: Phase, frame: int, players: seq<Player>,
    reason: Reason, winner: string, startedAt: int, finishedAt: int)

  datatype Result = Result(
    matchId: string, roomId: string, winner: string, playerCount: int, startedAt: int, finishedAt: int)

  datatype Room = Room(
    roomId: string, matchId: string, phase: Phase, reason: Reason, frame: int,
    players: seq<Player>, runtime: seq<Runtime>, pending: seq<bool>,
    createdAt: int, startedAt: int, finishedAt: int, lastTick: int, lastPersist: int,
    winner: string, playerCount: int, log: seq<Snapshot>)

  // ------------------------------------------------------------------ snapshots and results

  function SnapshotOf(r: Room): Snapshot {
    Snapshot(r.roomId, r.matchId, r.phase, r.frame, r.players, r.reason, r.winner, r.startedAt, r.finishedAt)
  }

  function Push(r: Room): Room {
    r.(log := r.log + [SnapshotOf(r)])
  }

  predicate Over(phase: Phase) {
    phase.Finishing? || phase.Finished? || phase.Aborted?
  }

  function ResultOf(r: Room): Option<Result> {
    if r.phase.Finishing? || r.phase.Finished?
    then Some(Result(r.matchId, r.roomId, r.winner, r.playerCount, r.startedAt, r.finishedAt))
    else None
  }

  predicate IsExpired(r: Room, now: int) {
    (r.phase.Finished? || r.phase.Aborted?) && now - r.finishedAt >= RETENTION_MS
  }

  predicate ShouldRetryPersist(r: Room, now: int) {
    r.phase.Finishing? && now - r.lastPersist >= RESULT_RETRY_MS
  }

  // ------------------------------------------------------------------ life cycle

  function Seats(ids: seq<string>): seq<Player> {
    seq(|ids|, i requires 0 <= i < |ids| => Player(ids[i], INITIAL_HP, false, true))
  }

  function NewRoom(roomId: string, matchId: string, ids: seq<string>, now: int): Room {
    Push(Room(roomId, matchId, Created, NoReason, 0, Seats(ids),
              seq(|ids|, _ => Runtime(true, 0)), seq(|ids|, _ => false),
              now, 0, 0, 0, 0, "", |ids|, []))
  }

  /** Seat of the first player called `p`. */
  function SeatOf(players: seq<Player>, p: string): (r: Option<nat>)
    ensures r.Some? ==> r.value < |players| && players[r.value].id == p
    ensures r.None? ==> forall i :: 0 <= i < |players| ==> players[i].id != p
  {
    if players == [] then None
    else if players[0].id == p then Some(0)
    else match SeatOf(players[1..], p)
      case None => None
      case Some(i) => Some(i + 1)
  }

  datatype JoinOutcome = Joined | NotAMember | JoinTooLate | BadJoin

  predicate AllJoined(players: seq<Player>) {
    forall i :: 0 <= i < |players| ==> players[i].joined
  }

  function Seated(r: Room, i: nat, now: int): Room
    requires i < |r.players|
  {
    var players := r.players[i := r.players[i].(joined := true)];
    if AllJoined(players)
    then Push(r.(players := players, phase := Playing, startedAt := now, lastTick := now, frame := 0))
    else Push(r.(players := players, phase := if r.phase.Created? then Waiting else r.phase))
  }

  function Join(r: Room, p: string, now: int): (Room, JoinOutcome) {
    if !ValidId(p) then (r, BadJoin)
    else if Over(r.phase) then (r, JoinTooLate)
    else match SeatOf(r.players, p)
      case None => (r, NotAMember)
      case Some(i) => if r.players[i].joined then (r, Joined) else (Seated(r, i, now), Joined)
  }

  datatype InputKind = Attack | OtherInput

  datatype SubmitOutcome = Taken | NotInRoom | NotPlaying | SubmitTooLate | BadInput

  function Submit(r: Room, p: string, kind: InputKind): (Room, SubmitOutcome) {
    if !ValidId(p) || kind != Attack then (r, BadInput)
    else if Over(r.phase) then (r, SubmitTooLate)
    else if !r.phase.Playing? then (r, NotPlaying)
    else match SeatOf(r.players, p)
      case None => (r, NotInRoom)
      case Some(i) => if i < |r.pending| then (r.(pending := r.pending[i := true]), Taken) else (r, Taken)
  }

  function Abort(r: Room, now: int): Room {
    Push(r.(phase := Aborted, reason := Scrapped, winner := "", finishedAt := now))
  }

  function Finish(r: Room, reason: Reason, winner: string, now: int): Room {
    Push(r.(phase := Finishing, reason := reason, winner := winner, finishedAt := now, lastPersist := 0))
  }

  // ------------------------------------------------------------------ connection state

  datatype PresenceOutcome = Noted | NoSuchMember | PresenceTooLate | BadPresence

  function SetPresence(r: Room, p: string, online: bool, now: int): (Room, PresenceOutcome) {
    if !ValidId(p) then (r, BadPresence)
    else if Over(r.phase) then (r, PresenceTooLate)
    else match SeatOf(r.players, p)
      case None => (r, NoSuchMember)
      case Some(i) =>
        if i >= |r.runtime| then (r, Noted)
        else if online then (Connected(r, i, Runtime(true, 0)), Noted)
        else if r.runtime[i].online then (Push(Connected(r, i, Runtime(false, now))), Noted)
        else (r, Noted)
  }

  function Connected(r: Room, i: nat, runtime: Runtime): Room
    requires i < |r.runtime| && i < |r.players|
  {
    r.(runtime := r.runtime[i := runtime], players := r.players[i := r.players[i].(online := runtime.online)])
  }

  predicate SomeoneOffline(r: Room) {
    exists i :: 0 <= i < |r.runtime| && !r.runtime[i].online
  }

  function Max(a: int, b: int): int {
    if a < b then b else a
  }

  /** When the last player still offline left; 0 if nobody is. */
  function LatestOffline(rs: seq<Runtime>): int {
    if rs == [] then 0
    else
      var n := |rs| - 1;
      if rs[n].online then LatestOffline(rs[..n]) else Max(LatestOffline(rs[..n]), rs[n].offlineSince)
  }

  /** Seat of the last player online. */
  function LastOnline(rs: seq<Runtime>): (r: Option<nat>)
    ensures r.Some? ==> r.value < |rs| && rs[r.value].online
    ensures r.None? ==> forall i :: 0 <= i < |rs| ==> !rs[i].online
  {
    if rs == [] then None
    else if rs[|rs| - 1].online then Some(|rs| - 1)
    else LastOnline(rs[..|rs| - 1])
  }

  function ResolveGrace(r: Room, now: int): (Room, bool)
    requires |r.players| == |r.runtime|
  {
    if !r.phase.Playing? || !SomeoneOffline(r) || now - LatestOffline(r.runtime) < RECONNECT_GRACE_MS then (r, false)
    else match LastOnline(r.runtime)
      case Some(i) => (Finish(r, Disconnect, r.players[i].id, now), true)
      case None => (Abort(r, now), true)
  }

  // ------------------------------------------------------------------ frames

  function Damaged(hp: int, hit: bool): int {
    if !hit then hp else if hp - ATTACK_DAMAGE < 0 then 0 else hp - ATTACK_DAMAGE
  }

  predicate TwoSeats(r: Room) {
    |r.players| == 2 && |r.runtime| == 2 && |r.pending| == 2
  }

  /** Each player is hit by the other's pending attack. */
  function Settled(r: Room): Room
    requires TwoSeats(r)
  {
    r.(frame := r.frame + 1,
       players := [r.players[0].(hp := Damaged(r.players[0].hp, r.pending[1])),
                   r.players[1].(hp := Damaged(r.players[1].hp, r.pending[0]))],
       pending := [false, false])
  }

  function HpWinner(a: Player, b: Player): string {
    if a.hp > b.hp then a.id else if b.hp > a.hp then b.id else ""
  }

  function Survivor(a: Player, b: Player): string {
    if a.hp > 0 then a.id else if b.hp > 0 then b.id else ""
  }

  function Advance(r: Room, now: int): Room
    requires TwoSeats(r)
  {
    var s := Settled(r);
    if s.players[0].hp <= 0 || s.players[1].hp <= 0 then
      Finish(s, HpZero, Survivor(s.players[0], s.players[1]), now)
    else if s.frame >= MAX_FRAMES then
      Finish(s, TimeUp, HpWinner(s.players[0], s.players[1]), now)
    else Push(s)
  }

  function Stepped(r: Room): Room {
    r.(lastTick := r.lastTick + FRAME_MS)
  }

  function AdvanceMany(r: Room, n: nat, now: int): (q: Room)
    requires TwoSeats(r)
    ensures TwoSeats(q)
    decreases n
  {
    if n == 0 || !r.phase.Playing? then r
    else AdvanceMany(Advance(Stepped(r), now), n - 1, now)
  }

  lemma AdvanceManyMore(r: Room, n: nat, now: int)
    requires TwoSeats(r) && n > 0 && r.phase.Playing?
    ensures AdvanceMany(r, n, now) == AdvanceMany(Advance(Stepped(r), now), n - 1, now)
  {
  }

  lemma AdvanceManyStops(r: Room, n: nat, now: int)
    requires TwoSeats(r) && (n == 0 || !r.phase.Playing?)
    ensures AdvanceMany(r, n, now) == r
  {
  }

  /** Every frame leaves a snapshot. */
  lemma {:induction false} AdvanceManyLog(r: Room, n: nat, now: int)
    requires TwoSeats(r)
    ensures r.log <= AdvanceMany(r, n, now).log
    ensures n > 0 && r.phase.Playing? <==> AdvanceMany(r, n, now).log != r.log
    decreases n
  {
    if n > 0 && r.phase.Playing? {
      AdvanceManyLog(Advance(Stepped(r), now), n - 1, now);
      assert |Advance(Stepped(r), now).log| == |r.log| + 1;
    }
  }

  function FramesDue(r: Room, now: int): int {
    (now - r.lastTick) / 100
  }

  /** Frames beyond the catch-up limit are dropped by moving the base time forward. */
  function FramesTaken(r: Room, now: int): int {
    if FramesDue(r, now) > MAX_CATCH_UP then MAX_CATCH_UP else FramesDue(r, now)
  }

  function CatchUp(r: Room, now: int): Room
    requires TwoSeats(r) && now >= r.lastTick
  {
    AdvanceMany(r.(lastTick := CatchUpBase(r, now)), FramesTaken(r, now), now)
  }

  function CatchUpBase(r: Room, now: int): int {
    r.lastTick + (FramesDue(r, now) - FramesTaken(r, now)) * 100
  }

  function Tick(r: Room, now: int): Room
    requires TwoSeats(r)
  {
    if r.phase.Created? || r.phase.Waiting? then
      if now - r.createdAt >= WAITING_TIMEOUT_MS then Abort(r, now) else r
    else if !r.phase.Playing? then r
    else if SomeoneOffline(r) then
      var (q, over) := ResolveGrace(r, now);
      if over then q else r.(lastTick := now)
    else if now < r.lastTick then r
    else CatchUp(r, now)
  }

  /** A tick has something to record: a room given up, a verdict by absence, or a frame. */
  predicate TickRecords(r: Room, now: int)
    requires TwoSeats(r)
  {
    if r.phase.Created? || r.phase.Waiting? then now - r.createdAt >= WAITING_TIMEOUT_MS
    else if !r.phase.Playing? then false
    else if SomeoneOffline(r) then ResolveGrace(r, now).1
    else now >= r.lastTick && FramesDue(r, now) > 0
  }

  lemma TickRecordsIff(r: Room, now: int)
    requires TwoSeats(r)
    ensures TickRecords(r, now) <==> Tick(r, now).log != r.log
  {
    if r.phase.Playing? && !SomeoneOffline(r) && now >= r.lastTick {
      AdvanceManyLog(r.(lastTick := CatchUpBase(r, now)), FramesTaken(r, now), now);
    }
  }

  // ------------------------------------------------------------------ persistence marks

  function MarkPersisted(r: Room): Room {
    if r.phase.Finishing? then r.(phase := Finished) else r
  }

  function MarkFailed(r: Room, now: int): Room {
    if r.phase.Finishing? then r.(lastPersist := now) else r
  }

  // ------------------------------------------------------------------ events

  datatype Op =
    | JoinOp(player: string)
    | SubmitOp(player: string, kind: InputKind)
    | PresenceOp(player: string, online: bool)
    | TickOp
    | AbortOp            // the manager aborts unfinished games only
    | PersistedOp
    | PersistFailedOp

  datatype Event = Event(now: int, op: Op)

  function Apply(r: Room, ev: Event): Room
    requires TwoSeats(r)
  {
    match ev.op
    case JoinOp(p) => Join(r, p, ev.now).0
    case SubmitOp(p, kind) => Submit(r, p, kind).0
    case PresenceOp(p, online) => SetPresence(r, p, online, ev.now).0
    case TickOp => Tick(r, ev.now)
    case AbortOp => if Over(r.phase) then r else Abort(r, ev.now)
    case PersistedOp => MarkPersisted(r)
    case PersistFailedOp => MarkFailed(r, ev.now)
  }

  // ------------------------------------------------------------------ the invariant

  predicate Steps(log: seq<Snapshot>) {
    forall i :: 0 < i < |log| ==> log[i - 1].frame <= log[i].frame <= log[i - 1].frame + 1
  }

  predicate SeatsOk(r: Room) {
    && TwoSeats(r)
    && r.playerCount == 2
    && ValidId(r.players[0].id)
    && ValidId(r.players[1].id)
    && r.players[0].id != r.players[1].id
    && r.players[0].online == r.runtime[0].online
    && r.players[1].online == r.runtime[1].online
    && 0 <= r.players[0].hp <= INITIAL_HP && r.players[0].hp % 10 == 0
    && 0 <= r.players[1].hp <= INITIAL_HP && r.players[1].hp % 10 == 0
  }

  predicate LogOk(r: Room) {
    && r.log != []
    && Steps(r.log)
    && r.log[|r.log| - 1].frame == r.frame
    && 0 <= r.frame <= MAX_FRAMES
  }

  /** The recorded winner is what the final hp, frame and connection state call for. */
  predicate VerdictOk(r: Room)
    requires TwoSeats(r)
  {
    var a, b := r.players[0], r.players[1];
    match r.reason
    case HpZero =>
      (a.hp == 0 || b.hp == 0) && r.winner == if a.hp > b.hp then a.id else if a.hp < b.hp then b.id else ""
    case TimeUp =>
      && a.hp > 0 && b.hp > 0 && r.frame == 600
      && (a.hp == b.hp ==> r.winner == "") && (a.hp > b.hp ==> r.winner == a.id) && (a.hp < b.hp ==> r.winner == b.id)
    case Disconnect =>
      a.hp > 0 && b.hp > 0 && a.online != b.online && r.winner == if a.online then a.id else b.id
    case NoReason => false
    case Scrapped => false
  }

  predicate PhaseOk(r: Room)
    requires TwoSeats(r)
  {
    var a, b := r.players[0], r.players[1];
    match r.phase
    case Created => !a.joined && !b.joined && r.frame == 0 && a.hp == b.hp == INITIAL_HP && Undecided(r)
    case Waiting => a.joined != b.joined && r.frame == 0 && a.hp == b.hp == INITIAL_HP && Undecided(r)
    case Playing => a.joined && b.joined && a.hp > 0 && b.hp > 0 && r.frame < MAX_FRAMES && Undecided(r)
    case Finishing => a.joined && b.joined && VerdictOk(r)
    case Finished => a.joined && b.joined && VerdictOk(r)
    case Aborted => r.reason == Scrapped && r.winner == ""
  }

  predicate Undecided(r: Room) {
    r.reason == NoReason && r.winner == "" && r.finishedAt == 0
  }

  predicate RoomOk(r: Room) {
    SeatsOk(r) && LogOk(r) && PhaseOk(r)
  }

  lemma PushKeepsLog(r: Room)
    requires r.log == [] || (Steps(r.log) && r.log[|r.log| - 1].frame <= r.frame <= r.log[|r.log| - 1].frame + 1)
    requires 0 <= r.frame <= MAX_FRAMES
    ensures LogOk(Push(r))
  {
  }

  /** A room with two distinct valid players starts in order. */
  lemma NewRoomOk(roomId: string, matchId: string, ids: seq<string>, now: int)
    requires |ids| == 2 && ids[0] != ids[1] && ValidId(ids[0]) && ValidId(ids[1])
    ensures RoomOk(NewRoom(roomId, matchId, ids, now))
  {
  }

  lemma SettledSeats(r: Room)
    requires RoomOk(r) && r.phase.Playing?
    ensures SeatsOk(Settled(r))
  {
  }

  lemma AdvanceKeepsOk(r: Room, now: int)
    requires RoomOk(r) && r.phase.Playing?
    ensures RoomOk(Advance(r, now))
    ensures Advance(r, now).phase.Playing? || Advance(r, now).phase.Finishing?
  {
    SettledSeats(r);
    PushKeepsLog(Advance(r, now).(log := r.log));
  }

  lemma {:induction false} AdvanceManyKeepsOk(r: Room, n: nat, now: int)
    requires RoomOk(r)
    ensures RoomOk(AdvanceMany(r, n, now))
    decreases n
  {
    if n > 0 && r.phase.Playing? {
      TickBaseIrrelevant(r, r.lastTick + FRAME_MS);
      AdvanceKeepsOk(Stepped(r), now);
      AdvanceManyKeepsOk(Advance(Stepped(r), now), n - 1, now);
    }
  }

  lemma FinishKeepsOk(r: Room, winner: string, now: int)
    requires RoomOk(r) && r.phase.Playing?
    requires VerdictOk(r.(reason := Disconnect, winner := winner))
    ensures RoomOk(Finish(r, Disconnect, winner, now))
  {
  }

  lemma OnlineSeat(r: Room)
    requires SeatsOk(r) && SomeoneOffline(r)
    ensures match LastOnline(r.runtime)
      case Some(i) => r.players[i].online && !r.players[1 - i].online
      case None => !r.players[0].online && !r.players[1].online
  {
    assert r.runtime[..1] == [r.runtime[0]];
  }

  lemma GraceKeepsOk(r: Room, now: int)
    requires RoomOk(r) && r.phase.Playing?
    ensures RoomOk(ResolveGrace(r, now).0)
  {
    if SomeoneOffline(r) && now - LatestOffline(r.runtime) >= RECONNECT_GRACE_MS {
      OnlineSeat(r);
      match LastOnline(r.runtime) {
        case Some(i) => FinishKeepsOk(r, r.players[i].id, now);
        case None => AbortKeepsOk(r, now);
      }
    }
  }

  lemma CatchUpKeepsOk(r: Room, now: int)
    requires RoomOk(r) && now >= r.lastTick
    ensures RoomOk(CatchUp(r, now))
  {
    TickBaseIrrelevant(r, CatchUpBase(r, now));
    AdvanceManyKeepsOk(r.(lastTick := CatchUpBase(r, now)), FramesTaken(r, now), now);
  }

  lemma TickBaseIrrelevant(r: Room, t: int)
    requires RoomOk(r)
    ensures RoomOk(r.(lastTick := t))
  {
  }

  lemma AbortKeepsOk(r: Room, now: int)
    requires RoomOk(r) && !Over(r.phase)
    ensures RoomOk(Abort(r, now))
  {
  }

  lemma TickKeepsOk(r: Room, now: int)
    requires RoomOk(r)
    ensures RoomOk(Tick(r, now))
  {
    if r.phase.Created? || r.phase.Waiting? {
      AbortKeepsOk(r, now);
    } else if r.phase.Playing? {
      if SomeoneOffline(r) {
        GraceKeepsOk(r, now);
      } else if now >= r.lastTick {
        CatchUpKeepsOk(r, now);
      }
    }
  }

  lemma SeatedKeepsOk(r: Room, i: nat, now: int)
    requires RoomOk(r) && !Over(r.phase) && i < 2 && !r.players[i].joined
    ensures RoomOk(Seated(r, i, now))
  {
    var players := r.players[i := r.players[i].(joined := true)];
    assert AllJoined(players) <==> players[0].joined && players[1].joined;
  }

  lemma JoinKeepsOk(r: Room, p: string, now: int)
    requires RoomOk(r)
    ensures RoomOk(Join(r, p, now).0)
  {
    match SeatOf(r.players, p)
    case None =>
    case Some(i) =>
      if !Over(r.phase) && !r.players[i].joined {
        SeatedKeepsOk(r, i, now);
      }
  }

  lemma ConnectedKeepsOk(r: Room, i: nat, runtime: Runtime)
    requires RoomOk(r) && i < 2 && !Over(r.phase)
    ensures RoomOk(Connected(r, i, runtime))
    ensures RoomOk(Push(Connected(r, i, runtime)))
  {
    assert SeatsOk(Connected(r, i, runtime));
    assert PhaseOk(Connected(r, i, runtime));
    PushKeepsLog(Connected(r, i, runtime));
  }

  lemma PresenceKeepsOk(r: Room, p: string, online: bool, now: int)
    requires RoomOk(r)
    ensures RoomOk(SetPresence(r, p, online, now).0)
  {
    if !Over(r.phase) {
      match SeatOf(r.players, p) {
        case None =>
        case Some(i) => ConnectedKeepsOk(r, i, if online then Runtime(true, 0) else Runtime(false, now));
      }
    }
  }

  lemma ApplyKeepsOk(r: Room, ev: Event)
    requires RoomOk(r)
    ensures RoomOk(Apply(r, ev))
  {
    match ev.op
    case JoinOp(p) => JoinKeepsOk(r, p, ev.now);
    case PresenceOp(p, online) => PresenceKeepsOk(r, p, online, ev.now);
    case TickOp => TickKeepsOk(r, ev.now);
    case AbortOp =>
      if !Over(r.phase) {
        AbortKeepsOk(r, ev.now);
      }
    case _ =>
  }
}
