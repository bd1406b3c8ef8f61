/** The moments of a room's life and what is shown of it: answers to requests, start, end, retries, expiry,
    and the newest snapshot. */
module RoomLife {
  import opened Wrappers
  import opened RoomCore
  import opened RoomRuns
  import opened RoomEvents

  // ------------------------------------------------------------------ answers

  predicate Plays(r: Room, p: string)
    requires TwoSeats(r)
  {
    p == r.players[0].id || p == r.players[1].id
  }

  predicate NameFits(p: string) {
    1 <= |p| <= 64
  }

  /** What a request is answered, by who asks and when. */
  lemma JoinAnswers(r: Room, p: string, now: int)
    requires RoomOk(r)
    ensures var ended := r.phase.Finishing? || r.phase.Finished? || r.phase.Aborted?;
      match Join(r, p, now).1
      case BadJoin => !NameFits(p)
      case JoinTooLate => NameFits(p) && ended
      case NotAMember => NameFits(p) && !ended && !Plays(r, p)
      case Joined => !ended && Plays(r, p)
  {
    SeatIs(r, 0);
    SeatIs(r, 1);
  }

  lemma SubmitAnswers(r: Room, p: string, kind: InputKind)
    requires RoomOk(r)
    ensures var ended := r.phase.Finishing? || r.phase.Finished? || r.phase.Aborted?;
      match Submit(r, p, kind).1
      case BadInput => !NameFits(p) || !kind.Attack?
      case SubmitTooLate => NameFits(p) && kind.Attack? && ended
      case NotPlaying => NameFits(p) && kind.Attack? && (r.phase.Created? || r.phase.Waiting?)
      case NotInRoom => NameFits(p) && kind.Attack? && r.phase.Playing? && !Plays(r, p)
      case Taken => kind.Attack? && r.phase.Playing? && Plays(r, p)
  {
    SeatIs(r, 0);
    SeatIs(r, 1);
  }

  lemma PresenceAnswers(r: Room, p: string, online: bool, now: int)
    requires RoomOk(r)
    ensures var ended := r.phase.Finishing? || r.phase.Finished? || r.phase.Aborted?;
      match SetPresence(r, p, online, now).1
      case BadPresence => !NameFits(p)
      case PresenceTooLate => NameFits(p) && ended
      case NoSuchMember => NameFits(p) && !ended && !Plays(r, p)
      case Noted => !ended && Plays(r, p)
  {
    SeatIs(r, 0);
    SeatIs(r, 1);
  }

  // ------------------------------------------------------------------ start and end

  /** What one step does to the moments a room remembers. */
  ghost predicate MomentsStep(r: Room, ev: Event, q: Room) {
    && q.createdAt == r.createdAt
    && (if !r.phase.Playing? && q.phase.Playing? then
          ev.op.JoinOp? && q.startedAt == ev.now && q.lastTick == ev.now && q.frame == 0
        else q.startedAt == r.startedAt)
    && (if !Over(r.phase) && Over(q.phase) then q.finishedAt == ev.now else q.finishedAt == r.finishedAt)
    && (if !Over(r.phase) && q.phase.Finishing? then q.lastPersist == 0
        else if r.phase.Finishing? && ev.op.PersistFailedOp? then q.lastPersist == ev.now
        else q.lastPersist == r.lastPersist)
    && (r.phase.Finishing? ==> (if ev.op.PersistedOp? then q.phase.Finished? else q.phase.Finishing?))
    && (r.phase.Finished? || r.phase.Aborted? ==> q.phase == r.phase)
    && (q.phase.Finished? ==> r.phase.Finished? || r.phase.Finishing?)
  }

  lemma {:induction false} AdvanceManyMoments(r: Room, n: nat, now: int)
    requires RoomOk(r) && r.phase.Playing?
    ensures var q := AdvanceMany(r, n, now);
      && q.createdAt == r.createdAt && q.startedAt == r.startedAt
      && (if q.phase.Playing? then q.finishedAt == r.finishedAt && q.lastPersist == r.lastPersist
          else q.phase.Finishing? && q.finishedAt == now && q.lastPersist == 0)
    decreases n
  {
    if n > 0 {
      TickBaseIrrelevant(r, r.lastTick + FRAME_MS);
      AdvanceKeepsOk(Stepped(r), now);
      if Advance(Stepped(r), now).phase.Playing? {
        AdvanceManyMoments(Advance(Stepped(r), now), n - 1, now);
      }
    }
  }

  lemma TickMoments(r: Room, now: int)
    requires RoomOk(r)
    ensures MomentsStep(r, Event(now, TickOp), Tick(r, now))
  {
    if r.phase.Playing? && !SomeoneOffline(r) && now >= r.lastTick {
      TickBaseIrrelevant(r, CatchUpBase(r, now));
      AdvanceManyMoments(r.(lastTick := CatchUpBase(r, now)), FramesTaken(r, now), now);
    }
  }

  lemma JoinMoments(r: Room, p: string, now: int)
    requires RoomOk(r)
    ensures MomentsStep(r, Event(now, JoinOp(p)), Join(r, p, now).0)
  {
    if !Over(r.phase) && r.phase.Playing? {
      assert r.players[0].joined && r.players[1].joined;
    }
  }

  lemma StepMoments(r: Room, ev: Event)
    requires RoomOk(r)
    ensures MomentsStep(r, ev, Apply(r, ev))
  {
    match ev.op
    case TickOp => TickMoments(r, ev.now);
    case JoinOp(p) => JoinMoments(r, p, ev.now);
    case _ =>
  }

  lemma {:induction false} CreatedOnce(rooms: seq<Room>, evs: seq<Event>, k: nat)
    requires IsRun(rooms, evs) && k <= |evs|
    ensures rooms[k].createdAt == rooms[0].createdAt
  {
    if k > 0 {
      CreatedOnce(rooms, evs, k - 1);
      RunKeepsOk(rooms, evs, k - 1);
      StepMoments(rooms[k - 1], evs[k - 1]);
    }
  }

  /** A room whose players do not all come is given up by the first tick 30 s after its creation, not before. */
  lemma GivenUpIff(rooms: seq<Room>, evs: seq<Event>, k: nat)
    requires IsRun(rooms, evs) && k < |evs| && evs[k].op.TickOp?
    requires rooms[k].phase.Created? || rooms[k].phase.Waiting?
    ensures if evs[k].now - rooms[0].createdAt >= 30000 then rooms[k + 1].phase.Aborted? else rooms[k + 1] == rooms[k]
  {
    CreatedOnce(rooms, evs, k);
  }

  ghost predicate Completes(rooms: seq<Room>, evs: seq<Event>, m: nat) {
    m < |evs| < |rooms| && evs[m].op.JoinOp? && !rooms[m].phase.Playing? && rooms[m + 1].phase.Playing?
  }

  /** A game's start is the moment of the join that completed the pair. */
  lemma {:induction false} StartedByAJoin(rooms: seq<Room>, evs: seq<Event>, k: nat)
    requires IsRun(rooms, evs) && k <= |evs| && rooms[0].phase.Created? && rooms[k].phase.Playing?
    ensures exists m :: 0 <= m < k && Completes(rooms, evs, m) && rooms[k].startedAt == evs[m].now
  {
    if k > 0 {
      RunKeepsOk(rooms, evs, k - 1);
      StepMoments(rooms[k - 1], evs[k - 1]);
      if rooms[k - 1].phase.Playing? {
        StartedByAJoin(rooms, evs, k - 1);
      } else {
        assert Completes(rooms, evs, k - 1);
      }
    }
  }

  // ------------------------------------------------------------------ after the end

  /** The moment of the last write reported failed after event `j`, or 0. */
  function LastFailure(evs: seq<Event>, j: nat, k: nat): int
    requires j < k <= |evs|
  {
    if k == j + 1 then 0
    else if evs[k - 1].op.PersistFailedOp? then evs[k - 1].now
    else LastFailure(evs, j, k - 1)
  }

  ghost predicate EndsAt(rooms: seq<Room>, evs: seq<Event>, j: nat) {
    IsRun(rooms, evs) && j < |evs| && !Over(rooms[j].phase) && Over(rooms[j + 1].phase)
  }

  lemma {:induction false} AfterTheEnd(rooms: seq<Room>, evs: seq<Event>, j: nat, k: nat)
    requires EndsAt(rooms, evs, j) && j < k <= |evs|
    ensures Over(rooms[k].phase) && rooms[k].finishedAt == evs[j].now
    ensures rooms[k].phase.Finishing? ==> rooms[k].lastPersist == LastFailure(evs, j, k)
    ensures rooms[k].phase.Finished? ==> exists m :: j < m < k && evs[m].op.PersistedOp?
  {
    RunKeepsOk(rooms, evs, k - 1);
    StepMoments(rooms[k - 1], evs[k - 1]);
    if k > j + 1 {
      AfterTheEnd(rooms, evs, j, k - 1);
      ResultNeverChanges(rooms, evs, j + 1, k);
    }
  }

  /** Once a game is decided its result is written, again one second after each failure, until a write is
      confirmed; and a room is kept five minutes after its end, a decided one until its result is written. */
  lemma RetryAndExpiryIff(rooms: seq<Room>, evs: seq<Event>, j: nat, k: nat, now: int)
    requires EndsAt(rooms, evs, j) && j < k <= |evs|
    ensures ShouldRetryPersist(rooms[k], now) <==> rooms[k].phase.Finishing? && now - LastFailure(evs, j, k) >= 1000
    ensures IsExpired(rooms[k], now) <==> !rooms[k].phase.Finishing? && now - evs[j].now >= 300000
  {
    AfterTheEnd(rooms, evs, j, k);
  }

  /** The result of a decided game names its match, its room, its winner, its players and its moments; other
      games have none. */
  lemma ResultSaysTheOutcome(r: Room)
    ensures ResultOf(r).Some? <==> r.phase.Finishing? || r.phase.Finished?
    ensures ResultOf(r).Some? ==>
      var res := ResultOf(r).value;
      && res.matchId == r.matchId && res.roomId == r.roomId && res.winner == r.winner
      && res.playerCount == r.playerCount && res.startedAt == r.startedAt && res.finishedAt == r.finishedAt
  {
  }

  // ------------------------------------------------------------------ what is shown

  /** The snapshot says of the room what the room is: a player shown offline may have come back since, and
      a result shown as pending may have been written since. */
  ghost predicate Shows(s: Snapshot, r: Room) {
    && s.roomId == r.roomId && s.matchId == r.matchId && s.frame == r.frame
    && TwoSeats(r) && |s.players| == 2
    && (forall i :: 0 <= i < 2 ==>
          && s.players[i].id == r.players[i].id && s.players[i].hp == r.players[i].hp
          && s.players[i].joined == r.players[i].joined
          && (!r.players[i].online ==> !s.players[i].online))
    && s.reason == r.reason && s.winner == r.winner
    && s.startedAt == r.startedAt && s.finishedAt == r.finishedAt
    && (s.phase == r.phase || (s.phase.Finishing? && r.phase.Finished?))
  }

  /** Asked for its state, a room shows exactly what it is. */
  lemma StateIsShown(r: Room)
    requires TwoSeats(r)
    ensures Shows(SnapshotOf(r), r) && SnapshotOf(r).phase == r.phase
    ensures forall i :: 0 <= i < 2 ==> SnapshotOf(r).players[i].online == r.players[i].online
  {
  }

  ghost predicate NewestShows(r: Room) {
    r.log != [] && Shows(r.log[|r.log| - 1], r)
  }

  lemma PushShows(r: Room)
    requires TwoSeats(r)
    ensures NewestShows(Push(r))
  {
    StateIsShown(r);
  }

  lemma {:induction false} AdvanceManyShows(r: Room, n: nat, now: int)
    requires TwoSeats(r) && NewestShows(r)
    ensures NewestShows(AdvanceMany(r, n, now))
    decreases n
  {
    if n > 0 && r.phase.Playing? {
      AdvanceShows(Stepped(r), now);
      AdvanceManyShows(Advance(Stepped(r), now), n - 1, now);
    }
  }

  lemma AdvanceShows(r: Room, now: int)
    requires TwoSeats(r)
    ensures NewestShows(Advance(r, now))
  {
    PushShows(Advance(r, now).(log := r.log));
  }

  lemma TickShows(r: Room, now: int)
    requires RoomOk(r) && NewestShows(r)
    ensures NewestShows(Tick(r, now))
  {
    if r.phase.Playing? && !SomeoneOffline(r) && now >= r.lastTick {
      AdvanceManyShows(r.(lastTick := CatchUpBase(r, now)), FramesTaken(r, now), now);
    }
  }

  lemma StepShows(r: Room, ev: Event)
    requires RoomOk(r) && NewestShows(r)
    ensures NewestShows(Apply(r, ev))
  {
    match ev.op
    case TickOp => TickShows(r, ev.now);
    case JoinOp(p) => JoinShows(r, p, ev.now);
    case PresenceOp(p, online) => PresenceShows(r, p, online, ev.now);
    case _ =>
  }

  lemma JoinShows(r: Room, p: string, now: int)
    requires RoomOk(r) && NewestShows(r)
    ensures NewestShows(Join(r, p, now).0)
  {
  }

  lemma PresenceShows(r: Room, p: string, online: bool, now: int)
    requires RoomOk(r) && NewestShows(r)
    ensures NewestShows(SetPresence(r, p, online, now).0)
  {
  }

  /** Through every run the newest snapshot recorded shows the room. */
  lemma {:induction false} NewestShowsRoom(rooms: seq<Room>, evs: seq<Event>, k: nat)
    requires IsRun(rooms, evs) && k <= |evs| && NewestShows(rooms[0])
    ensures NewestShows(rooms[k])
  {
    if k > 0 {
      NewestShowsRoom(rooms, evs, k - 1);
      RunKeepsOk(rooms, evs, k - 1);
      StepShows(rooms[k - 1], evs[k - 1]);
    }
  }

  /** A fresh room: nobody has joined, everybody is online with 100 hp and no attack waits, and it is shown so. */
  lemma FreshRoom(roomId: string, matchId: string, ids: seq<string>, now: int)
    requires |ids| == 2 && ids[0] != ids[1] && NameFits(ids[0]) && NameFits(ids[1])
    ensures var r := NewRoom(roomId, matchId, ids, now);
      && RoomOk(r) && NewestShows(r) && r.phase.Created? && r.createdAt == now && r.frame == 0
      && r.roomId == roomId && r.matchId == matchId && r.pending == [false, false]
      && forall i :: 0 <= i < 2 ==>
           r.players[i].id == ids[i] && r.players[i].hp == 100 && r.players[i].online && !r.players[i].joined
  {
    NewRoomOk(roomId, matchId, ids, now);
  }
}
