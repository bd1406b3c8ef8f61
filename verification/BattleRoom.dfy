/** The battle room as an object whose methods update its fields, proved against RoomCore. */
module BattleRooms {
  import opened Wrappers
  import opened RoomCore
  import opened RoomHistory
  import Store = RoomStore

  class BattleRoom {
    const roomId: string
    const matchId: string
    const createdAt: int
    const playerCount: int
    var phase: Phase
    var reason: Reason
    var frame: int
    var players: seq<Player>
    var runtime: seq<Runtime>
    var pending: seq<bool>
    var startedAt: int
    var finishedAt: int
    var lastTick: int
    var lastPersist: int
    var winner: string
    var history: seq<Snapshot>     // the ring: at most 128 snapshots
    ghost var log: seq<Snapshot>   // every snapshot ever recorded

    ghost function Model(): Room
      reads this
    {
      Room(roomId, matchId, phase, reason, frame, players, runtime, pending,
           createdAt, startedAt, finishedAt, lastTick, lastPersist, winner, playerCount, log)
    }

    ghost predicate RingOk()
      reads this
    {
      history == Ring(log)
    }

    ghost predicate Valid()
      reads this
    {
      RingOk() && RoomOk(Model())
    }

    constructor (roomId: string, matchId: string, ids: seq<string>, now: int)
      ensures RingOk() && Model() == NewRoom(roomId, matchId, ids, now)
      ensures |ids| == 2 && ids[0] != ids[1] && ValidId(ids[0]) && ValidId(ids[1]) ==> Valid()
    {
      this.roomId, this.matchId, this.createdAt, this.playerCount := roomId, matchId, now, |ids|;
      phase, reason, frame, winner := Created, NoReason, 0, "";
      startedAt, finishedAt, lastTick, lastPersist := 0, 0, 0, 0;
      players := Seats(ids);
      runtime := seq(|ids|, _ => Runtime(true, 0));
      pending := seq(|ids|, _ => false);
      history, log := [], [];
      new;
      if |ids| == 2 && ids[0] != ids[1] && ValidId(ids[0]) && ValidId(ids[1]) {
        NewRoomOk(roomId, matchId, ids, now);
      }
      PushSnapshot();
    }

    /** A room rebuilt from a row that passed the checks of RestoreFrom. */
    constructor FromRecord(rec: Store.Record, now: int)
      requires Store.Restorable(rec)
      ensures RingOk() && Store.RestoreFrom(rec, now) == Some(Model())
    {
      roomId, matchId, playerCount := rec.roomId, rec.matchId, PLAYERS_PER_ROOM;
      phase, reason, frame, winner := rec.phase, rec.reason, rec.frame, rec.winner;
      startedAt, finishedAt := rec.startedAt, rec.finishedAt;
      players := [Store.SeatFrom(rec.players[0]), Store.SeatFrom(rec.players[1])];
      pending := [false, false];
      runtime := [Runtime(true, 0), Runtime(true, 0)];
      createdAt := if rec.snapshotAt > 0 then rec.snapshotAt else now;
      lastTick := now;
      lastPersist := now - RESULT_RETRY_MS;
      history, log := [], [];
      new;
      PushSnapshot();
    }

    static method RestoreFrom(rec: Store.Record, now: int) returns (room: BattleRoom?)
      ensures room == null <==> Store.RestoreFrom(rec, now).None?
      ensures room != null ==>
        fresh(room) && room.RingOk() && Store.RestoreFrom(rec, now) == Some(room.Model())
    {
      if |rec.players| != PLAYERS_PER_ROOM {
        return null;
      }
      var ok := DistinctNames(rec.players);
      if !ok {
        return null;
      }
      room := new BattleRoom.FromRecord(rec, now);
    }

    static method DistinctNames(players: seq<Store.PlayerRow>) returns (ok: bool)
      ensures ok <==>
        ((forall i :: 0 <= i < |players| ==> players[i].id != "")
         && (forall i, j :: 0 <= i < j < |players| ==> players[i].id != players[j].id))
    {
      var i := 0;
      while i < |players|
        invariant 0 <= i <= |players|
        invariant forall k :: 0 <= k < i ==> players[k].id != ""
        invariant forall k, m :: 0 <= k < i && k < m < |players| ==> players[k].id != players[m].id
      {
        if players[i].id == "" {
          return false;
        }
        var j := i + 1;
        while j < |players|
          invariant i < j <= |players|
          invariant forall m :: i < m < j ==> players[i].id != players[m].id
        {
          if players[i].id == players[j].id {
            return false;
          }
          j := j + 1;
        }
        i := i + 1;
      }
      return true;
    }

    function CurrentSnapshot(): (s: Snapshot)
      reads this
      ensures s == SnapshotOf(Model())
    {
      Snapshot(roomId, matchId, phase, frame, players, reason, winner, startedAt, finishedAt)
    }

    method PushSnapshot()
      requires RingOk()
      modifies this`history, this`log
      ensures RingOk() && Model() == Push(old(Model()))
    {
      RingPush(log, CurrentSnapshot());
      history := history + [CurrentSnapshot()];
      log := log + [CurrentSnapshot()];
      while |history| > HISTORY
        invariant log == old(log) + [SnapshotOf(old(Model()))]
        invariant if |history| > HISTORY then history[1..] == Ring(log) else history == Ring(log)
      {
        history := history[1..];
      }
    }

    method IndexOf(p: string) returns (i: Option<nat>)
      ensures i == SeatOf(players, p)
    {
      var k := 0;
      while k < |players|
        invariant 0 <= k <= |players|
        invariant forall m :: 0 <= m < k ==> players[m].id != p
      {
        if players[k].id == p {
          FirstSeat(players, p, k);
          return Some(k);
        }
        k := k + 1;
      }
      return None;
    }

    method EverybodyJoined() returns (all: bool)
      ensures all == AllJoined(players)
    {
      var i := 0;
      while i < |players|
        invariant 0 <= i <= |players|
        invariant forall m :: 0 <= m < i ==> players[m].joined
      {
        if !players[i].joined {
          return false;
        }
        i := i + 1;
      }
      return true;
    }

    method Join(p: string, now: int) returns (outcome: JoinOutcome)
      requires Valid()
      modifies this
      ensures Valid()
      ensures (Model(), outcome) == RoomCore.Join(old(Model()), p, now)
    {
      JoinKeepsOk(Model(), p, now);
      if |p| == 0 || |p| > MAX_ID_LENGTH {
        return BadJoin;
      }
      if phase.Finishing? || phase.Finished? || phase.Aborted? {
        return JoinTooLate;
      }
      var seat := IndexOf(p);
      if seat.None? {
        return NotAMember;
      }
      var i := seat.value;
      if players[i].joined {
        return Joined;
      }
      TakeSeat(i, now);
      return Joined;
    }

    method TakeSeat(i: nat, now: int)
      requires RingOk() && i < |players|
      modifies this
      ensures RingOk() && Model() == Seated(old(Model()), i, now)
    {
      players := players[i := players[i].(joined := true)];
      if phase.Created? {
        phase := Waiting;
      }
      var all := EverybodyJoined();
      if all {
        phase := Playing;
        startedAt := now;
        lastTick := now;
        frame := 0;
      }
      PushSnapshot();
    }

    method SubmitInput(p: string, kind: InputKind) returns (outcome: SubmitOutcome)
      requires Valid()
      modifies this`pending
      ensures Valid()
      ensures (Model(), outcome) == Submit(old(Model()), p, kind)
    {
      if |p| == 0 || |p| > MAX_ID_LENGTH {
        return BadInput;
      }
      if kind != Attack {
        return BadInput;
      }
      if phase.Finishing? || phase.Finished? || phase.Aborted? {
        return SubmitTooLate;
      }
      if !phase.Playing? {
        return NotPlaying;
      }
      var seat := IndexOf(p);
      if seat.None? {
        return NotInRoom;
      }
      pending := pending[seat.value := true];
      return Taken;
    }

    method FinishWith(why: Reason, who: string, now: int)
      requires RingOk()
      modifies this
      ensures RingOk() && Model() == Finish(old(Model()), why, who, now)
    {
      phase := Finishing;
      reason := why;
      winner := who;
      finishedAt := now;
      lastPersist := 0;
      PushSnapshot();
    }

    method AbortNow(now: int)
      requires RingOk()
      modifies this
      ensures RingOk() && Model() == Abort(old(Model()), now)
    {
      phase := Aborted;
      reason := Scrapped;
      winner := "";
      finishedAt := now;
      PushSnapshot();
    }

    method IsWaitingForReconnect() returns (waiting: bool)
      ensures waiting <==> SomeoneOffline(Model())
    {
      var i := 0;
      while i < |runtime|
        invariant 0 <= i <= |runtime|
        invariant forall m :: 0 <= m < i ==> runtime[m].online
      {
        if !runtime[i].online {
          return true;
        }
        i := i + 1;
      }
      return false;
    }

    method SetPresence(p: string, online: bool, now: int) returns (outcome: PresenceOutcome)
      requires Valid()
      modifies this
      ensures Valid()
      ensures (Model(), outcome) == RoomCore.SetPresence(old(Model()), p, online, now)
    {
      PresenceKeepsOk(Model(), p, online, now);
      if |p| == 0 || |p| > MAX_ID_LENGTH {
        return BadPresence;
      }
      if phase.Finishing? || phase.Finished? || phase.Aborted? {
        return PresenceTooLate;
      }
      var seat := IndexOf(p);
      if seat.None? {
        return NoSuchMember;
      }
      var i := seat.value;
      if online {
        runtime := runtime[i := Runtime(true, 0)];
        players := players[i := players[i].(online := true)];
      } else if runtime[i].online {
        runtime := runtime[i := Runtime(false, now)];
        players := players[i := players[i].(online := false)];
        PushSnapshot();
      }
      return Noted;
    }

    /** How many are offline and online, who was seen online last, and when the last one left. */
    method CountOnline() returns (offline: nat, online: nat, lastOnline: nat, latest: int)
      ensures offline > 0 <==> SomeoneOffline(Model())
      ensures online > 0 <==> LastOnline(runtime).Some?
      ensures online > 0 ==> LastOnline(runtime) == Some(lastOnline)
      ensures latest == LatestOffline(runtime)
    {
      offline, online, lastOnline, latest := 0, 0, 0, 0;
      var i := 0;
      while i < |runtime|
        invariant 0 <= i <= |runtime|
        invariant offline > 0 <==> exists m :: 0 <= m < i && !runtime[m].online
        invariant online > 0 <==> LastOnline(runtime[..i]).Some?
        invariant online > 0 ==> LastOnline(runtime[..i]) == Some(lastOnline)
        invariant latest == LatestOffline(runtime[..i])
      {
        assert runtime[..i + 1][..i] == runtime[..i];
        if runtime[i].online {
          online, lastOnline := online + 1, i;
        } else {
          offline := offline + 1;
          latest := Max(latest, runtime[i].offlineSince);
        }
        i := i + 1;
      }
      assert runtime[..i] == runtime;
    }

    method ResolveReconnectGrace(now: int) returns (over: bool)
      requires Valid()
      modifies this
      ensures RingOk()
      ensures (Model(), over) == ResolveGrace(old(Model()), now)
    {
      if !phase.Playing? {
        return false;
      }
      var offline, online, onlineIndex, latest := CountOnline();
      if offline == 0 {
        return false;
      }
      if now - latest < RECONNECT_GRACE_MS {
        return false;
      }
      if online > 0 {
        FinishWith(Disconnect, players[onlineIndex].id, now);
        return true;
      }
      AbortNow(now);
      return true;
    }

    /** Settle the attacks of one frame, seat by seat. */
    method SettleAttacks()
      requires TwoSeats(Model())
      modifies this`players, this`pending
      ensures |players| == 2 && pending == [false, false]
      ensures players == Settled(old(Model())).players
    {
      ghost var hit := pending;
      ghost var was := players;
      var i := 0;
      while i < |players|
        invariant 0 <= i <= 2 && |players| == 2 && |pending| == 2
        invariant forall k :: 0 <= k < 2 ==> pending[k] == (if k < i then false else hit[k])
        invariant players[0] == was[0].(hp := Damaged(was[0].hp, i > 1 && hit[1]))
        invariant players[1] == was[1].(hp := Damaged(was[1].hp, i > 0 && hit[0]))
      {
        if pending[i] {
          pending := pending[i := false];
          var target := (i + 1) % |players|;
          var hp := players[target].hp - ATTACK_DAMAGE;
          if hp < 0 {
            hp := 0;
          }
          players := players[target := players[target].(hp := hp)];
        }
        i := i + 1;
      }
    }

    method Alive() returns (alive: seq<nat>)
      requires |players| == 2
      ensures forall k :: 0 <= k < |alive| ==> alive[k] < 2 && players[alive[k]].hp > 0
      ensures |alive| == (if players[0].hp > 0 then 1 else 0) + (if players[1].hp > 0 then 1 else 0)
    {
      alive := [];
      var i := 0;
      while i < |players|
        invariant 0 <= i <= 2
        invariant forall k :: 0 <= k < |alive| ==> alive[k] < i && players[alive[k]].hp > 0
        invariant |alive| == (if i > 0 && players[0].hp > 0 then 1 else 0)
                             + (if i > 1 && players[1].hp > 0 then 1 else 0)
      {
        if players[i].hp > 0 {
          alive := alive + [i];
        }
        i := i + 1;
      }
    }

    method AdvanceOneFrame(now: int)
      requires RingOk() && TwoSeats(Model())
      modifies this
      ensures RingOk() && Model() == Advance(old(Model()), now)
    {
      frame := frame + 1;
      SettleAttacks();
      var alive := Alive();
      if |alive| <= 1 {
        var who := "";
        if |alive| == 1 {
          who := players[alive[0]].id;
        }
        FinishWith(HpZero, who, now);
        return;
      }
      if frame >= MAX_FRAMES {
        var who := "";
        if players[0].hp > players[1].hp {
          who := players[0].id;
        } else if players[1].hp > players[0].hp {
          who := players[1].id;
        }
        FinishWith(TimeUp, who, now);
        return;
      }
      PushSnapshot();
    }

    /** One round of the catch-up loop. */
    method StepFrame(now: int)
      requires RingOk() && TwoSeats(Model())
      modifies this
      ensures RingOk() && TwoSeats(Model()) && Model() == Advance(Stepped(old(Model())), now)
    {
      lastTick := lastTick + FRAME_MS;
      AdvanceOneFrame(now);
    }

    method AdvanceFrames(frames: nat, now: int) returns (changed: bool)
      requires RingOk() && TwoSeats(Model())
      modifies this
      ensures RingOk() && Model() == AdvanceMany(old(Model()), frames, now)
      ensures changed <==> frames > 0 && old(phase).Playing?
    {
      ghost var start := Model();
      changed := false;
      var left := frames;
      while left > 0 && phase.Playing?
        invariant 0 <= left <= frames && RingOk() && TwoSeats(Model())
        invariant AdvanceMany(Model(), left, now) == AdvanceMany(start, frames, now)
        invariant changed <==> left < frames
        invariant if left == frames then phase == start.phase else start.phase.Playing?
      {
        ghost var r := Model();
        AdvanceManyMore(r, left, now);
        StepFrame(now);
        changed := true;
        left := left - 1;
      }
      AdvanceManyStops(Model(), left, now);
    }

    /** The answer says whether a snapshot was recorded, which is when there is something to push. */
    method Tick(now: int) returns (changed: bool)
      requires Valid()
      modifies this
      ensures Valid()
      ensures Model() == RoomCore.Tick(old(Model()), now)
      ensures changed <==> log != old(log)
    {
      TickKeepsOk(Model(), now);
      TickRecordsIff(Model(), now);
      if phase.Created? || phase.Waiting? {
        if now - createdAt >= WAITING_TIMEOUT_MS {
          AbortNow(now);
          return true;
        }
        return false;
      }
      if !phase.Playing? {
        return false;
      }
      var waiting := IsWaitingForReconnect();
      if waiting {
        var over := ResolveReconnectGrace(now);
        if over {
          return true;
        }
        lastTick := now;
        return false;
      }
      if now < lastTick {
        return false;
      }
      changed := CatchUpNow(now);
    }

    method CatchUpNow(now: int) returns (changed: bool)
      requires RingOk() && TwoSeats(Model()) && phase.Playing? && now >= lastTick
      modifies this
      ensures RingOk() && Model() == CatchUp(old(Model()), now)
      ensures changed <==> FramesDue(old(Model()), now) > 0
    {
      ghost var r := Model();
      var frames := (now - lastTick) / 100;
      if frames <= 0 {
        return false;
      }
      if frames > MAX_CATCH_UP {
        lastTick := lastTick + (frames - MAX_CATCH_UP) * 100;
        frames := MAX_CATCH_UP;
      }
      assert lastTick == CatchUpBase(r, now) && frames == FramesTaken(r, now);
      assert Model() == r.(lastTick := CatchUpBase(r, now));
      changed := AdvanceFrames(frames, now);
    }

    method MarkResultPersisted()
      requires Valid()
      modifies this`phase
      ensures Valid() && Model() == MarkPersisted(old(Model()))
    {
      if phase.Finishing? {
        phase := Finished;
      }
    }

    method MarkResultFailed(now: int)
      requires Valid()
      modifies this`lastPersist
      ensures Valid() && Model() == MarkFailed(old(Model()), now)
    {
      if phase.Finishing? {
        lastPersist := now;
      }
    }

    /** The smallest and the largest frame in the ring: its first and its last. */
    method SnapshotFrameRange() returns (oldest: int, newest: int)
      requires Valid()
      ensures history != [] && oldest == history[0].frame && newest == history[|history| - 1].frame == frame
    {
      RingSteps(log);
      RingOldest(history);
      oldest, newest := 0, 0;
      var i := 0;
      while i < |history|
        invariant 0 <= i <= |history|
        invariant i > 0 ==> oldest == history[0].frame && newest == history[i - 1].frame
      {
        if i == 0 || history[i].frame < oldest {
          oldest := history[i].frame;
        }
        if i == 0 || history[i].frame > newest {
          newest := history[i].frame;
        }
        i := i + 1;
      }
    }

    method SnapshotsAfter(since: int) returns (result: seq<Snapshot>)
      ensures result == After(history, since)
    {
      result := [];
      var i := 0;
      while i < |history|
        invariant 0 <= i <= |history|
        invariant result == After(history[..i], since)
      {
        var s := history[i];
        assert history[..i + 1][..i] == history[..i];
        if s.frame > since {
          if result != [] && result[|result| - 1].frame == s.frame {
            result := result[..|result| - 1] + [s];
          } else {
            result := result + [s];
          }
        }
        i := i + 1;
      }
      assert history[..i] == history;
    }

    /** The body of the manager's GetSnapshotsSince for this room. */
    method SnapshotsSince(since: int) returns (w: Window)
      requires Valid()
      ensures Ring(log) != [] && w == WindowOf(Ring(log), frame, since)
    {
      var snapshots := SnapshotsAfter(since);
      var oldest, newest := SnapshotFrameRange();
      if since > frame {
        return Window(Ahead, snapshots, oldest, frame);
      }
      if since + 1 < oldest {
        return Window(Incomplete, snapshots, oldest, frame);
      }
      return Window(Complete, snapshots, oldest, frame);
    }
  }

  lemma {:induction false} FirstSeat(players: seq<Player>, p: string, k: nat)
    requires k < |players| && players[k].id == p && forall m :: 0 <= m < k ==> players[m].id != p
    ensures SeatOf(players, p) == Some(k)
  {
    if k > 0 {
      FirstSeat(players[1..], p, k - 1);
    }
  }
}
