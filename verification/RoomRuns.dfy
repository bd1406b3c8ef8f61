/** What holds in every run of one room: damage, verdicts, the reconnect grace and the tick arithmetic. */
module RoomRuns {
  import opened Wrappers
  import opened RoomCore

  /** `rooms[k]` is the room after the first `k` events. */
  ghost predicate IsRun(rooms: seq<Room>, evs: seq<Event>) {
    && |rooms| == |evs| + 1
    && RoomOk(rooms[0])
    && forall k :: 0 <= k < |evs| ==> TwoSeats(rooms[k]) && rooms[k + 1] == Apply(rooms[k], evs[k])
  }

  ghost predicate ClockAdvances(evs: seq<Event>) {
    forall i :: 0 < i < |evs| ==> evs[i - 1].now <= evs[i].now
  }

  lemma {:induction false} RunKeepsOk(rooms: seq<Room>, evs: seq<Event>, k: nat)
    requires IsRun(rooms, evs) && k <= |evs|
    ensures RoomOk(rooms[k])
  {
    if k > 0 {
      RunKeepsOk(rooms, evs, k - 1);
      ApplyKeepsOk(rooms[k - 1], evs[k - 1]);
    }
  }

  // ------------------------------------------------------------------ damage

  lemma AdvanceHp(r: Room, now: int)
    requires RoomOk(r) && r.phase.Playing?
    ensures var q := Advance(r, now);
      && q.frame == r.frame + 1
      && q.pending == [false, false]
      && q.players[0].hp == r.players[0].hp - (if r.pending[1] then ATTACK_DAMAGE else 0)
      && q.players[1].hp == r.players[1].hp - (if r.pending[0] then ATTACK_DAMAGE else 0)
  {
  }

  // ------------------------------------------------------------------ the log

  /** Snapshots are added to what a room has recorded, and nothing else happens to it. */
  lemma LogGrows(r: Room, ev: Event)
    requires TwoSeats(r)
    ensures r.log <= Apply(r, ev).log
  {
    match ev.op
    case TickOp =>
      if r.phase.Playing? && !SomeoneOffline(r) && ev.now >= r.lastTick {
        AdvanceManyLog(r.(lastTick := CatchUpBase(r, ev.now)), FramesTaken(r, ev.now), ev.now);
      }
    case _ =>
  }

  /** The step settles the attack the other player had pending. */
  predicate Hit(r: Room, q: Room, i: nat)
    requires TwoSeats(r) && i < 2
  {
    r.pending[1 - i] && q.frame > r.frame
  }

  ghost predicate HpStep(r: Room, q: Room, i: nat) {
    && i < 2 && TwoSeats(r) && TwoSeats(q)
    && q.players[i].hp == r.players[i].hp - (if Hit(r, q, i) then ATTACK_DAMAGE else 0)
    && q.frame >= r.frame
  }

  lemma FirstFrameHp(r: Room, now: int, i: nat)
    requires RoomOk(r) && r.phase.Playing? && i < 2
    ensures var q := Advance(Stepped(r), now);
      HpStep(r, q, i) && q.pending == [false, false] && q.frame > r.frame
  {
    TickBaseIrrelevant(r, r.lastTick + FRAME_MS);
    AdvanceHp(Stepped(r), now);
  }

  /** With nothing pending any more, later frames of the same tick do no damage. */
  lemma HpChain(r: Room, s: Room, q: Room, i: nat)
    requires HpStep(r, s, i) && s.pending == [false, false] && s.frame > r.frame
    requires HpStep(s, q, i)
    ensures HpStep(r, q, i) && q.frame > r.frame
  {
  }

  lemma {:induction false} AdvanceManyHp(r: Room, n: nat, now: int, i: nat)
    requires RoomOk(r) && r.phase.Playing? && i < 2
    ensures HpStep(r, AdvanceMany(r, n, now), i)
    decreases n
  {
    if n > 0 {
      var s := Advance(Stepped(r), now);
      FirstFrameHp(r, now, i);
      TickBaseIrrelevant(r, r.lastTick + FRAME_MS);
      AdvanceKeepsOk(Stepped(r), now);
      if s.phase.Playing? {
        AdvanceManyHp(s, n - 1, now, i);
        HpChain(r, s, AdvanceMany(s, n - 1, now), i);
      }
    }
  }

  lemma CatchUpHp(r: Room, now: int, i: nat)
    requires RoomOk(r) && r.phase.Playing? && now >= r.lastTick && i < 2
    ensures HpStep(r, CatchUp(r, now), i)
  {
    TickBaseIrrelevant(r, CatchUpBase(r, now));
    AdvanceManyHp(r.(lastTick := CatchUpBase(r, now)), FramesTaken(r, now), now, i);
  }

  lemma TickHp(r: Room, now: int, i: nat)
    requires RoomOk(r) && i < 2
    ensures HpStep(r, Tick(r, now), i)
  {
    if r.phase.Playing? && !SomeoneOffline(r) && now >= r.lastTick {
      CatchUpHp(r, now, i);
    }
  }

  lemma JoinHp(r: Room, p: string, now: int, i: nat)
    requires RoomOk(r) && i < 2
    ensures HpStep(r, Join(r, p, now).0, i)
  {
  }

  lemma PresenceHp(r: Room, p: string, online: bool, now: int, i: nat)
    requires RoomOk(r) && i < 2
    ensures HpStep(r, SetPresence(r, p, online, now).0, i)
  {
  }

  lemma StepHp(r: Room, ev: Event, i: nat)
    requires RoomOk(r) && i < 2
    ensures HpStep(r, Apply(r, ev), i)
  {
    match ev.op
    case TickOp => TickHp(r, ev.now, i);
    case JoinOp(p) => JoinHp(r, p, ev.now, i);
    case PresenceOp(p, online) => PresenceHp(r, p, online, ev.now, i);
    case _ =>
  }

  /** Number of steps among the first `k` that settled an attack on player `i`. */
  ghost function HitsTaken(rooms: seq<Room>, k: nat, i: nat): nat
    requires k < |rooms| && i < 2 && forall m :: 0 <= m <= k ==> TwoSeats(rooms[m])
  {
    if k == 0 then 0 else HitsTaken(rooms, k - 1, i) + (if Hit(rooms[k - 1], rooms[k], i) then 1 else 0)
  }

  lemma {:induction false} HpSumsHits(rooms: seq<Room>, k: nat, i: nat)
    requires k < |rooms| && i < 2 && TwoSeats(rooms[0])
    requires forall m :: 0 <= m < k ==> HpStep(rooms[m], rooms[m + 1], i)
    ensures forall m :: 0 <= m <= k ==> TwoSeats(rooms[m])
    ensures TwoSeats(rooms[0]) && TwoSeats(rooms[k])
    ensures rooms[k].players[i].hp == rooms[0].players[i].hp - 10 * HitsTaken(rooms, k, i)
    ensures rooms[k].frame >= rooms[0].frame
  {
    if k > 0 {
      HpSumsHits(rooms, k - 1, i);
      assert HpStep(rooms[k - 1], rooms[k - 1 + 1], i);
    }
  }

  /** Every point of damage is an attack of the opponent settled in a frame: the clamp at zero never bites. */
  lemma HpCountsHits(rooms: seq<Room>, evs: seq<Event>, k: nat, i: nat)
    requires IsRun(rooms, evs) && k <= |evs| && i < 2
    ensures forall m :: 0 <= m <= k ==> TwoSeats(rooms[m])
    ensures TwoSeats(rooms[0]) && TwoSeats(rooms[k])
    ensures rooms[k].players[i].hp == rooms[0].players[i].hp - 10 * HitsTaken(rooms, k, i)
    ensures rooms[k].frame >= rooms[0].frame
  {
    forall m | 0 <= m < k ensures HpStep(rooms[m], rooms[m + 1], i) {
      RunKeepsOk(rooms, evs, m);
      StepHp(rooms[m], evs[m], i);
    }
    HpSumsHits(rooms, k, i);
  }

  // ------------------------------------------------------------------ verdicts

  ghost predicate Decided(r: Room, q: Room) {
    && Over(q.phase)
    && ResultOf(q) == ResultOf(r)
    && (r.phase.Aborted? ==> q == r)
    && (q.players == r.players && q.frame == r.frame && q.reason == r.reason)
  }

  lemma StepDecided(r: Room, ev: Event)
    requires TwoSeats(r) && Over(r.phase)
    ensures Decided(r, Apply(r, ev))
  {
  }

  /** A decided room keeps its result through every further event, and an aborted one never gets any. */
  lemma {:induction false} ResultNeverChanges(rooms: seq<Room>, evs: seq<Event>, j: nat, k: nat)
    requires IsRun(rooms, evs) && j <= k <= |evs|
    requires Over(rooms[j].phase)
    ensures Over(rooms[k].phase) && ResultOf(rooms[k]) == ResultOf(rooms[j])
    ensures rooms[j].phase.Aborted? ==> rooms[k] == rooms[j] && ResultOf(rooms[k]).None?
  {
    if j < k {
      ResultNeverChanges(rooms, evs, j, k - 1);
      StepDecided(rooms[k - 1], evs[k - 1]);
    }
  }

  /** In every run, a room that has a result has the verdict its final hp, frame and connections call for. */
  lemma VerdictIsSound(rooms: seq<Room>, evs: seq<Event>, k: nat)
    requires IsRun(rooms, evs) && k <= |evs|
    ensures TwoSeats(rooms[k])
    ensures ResultOf(rooms[k]).Some? ==> VerdictOk(rooms[k]) && ResultOf(rooms[k]).value.winner == rooms[k].winner
    ensures ResultOf(rooms[k]).Some? <==> rooms[k].phase.Finishing? || rooms[k].phase.Finished?
  {
    RunKeepsOk(rooms, evs, k);
  }

  // ------------------------------------------------------------------ the reconnect grace

  lemma AdvanceManyKeepsRuntime(r: Room, n: nat, now: int)
    requires TwoSeats(r)
    ensures AdvanceMany(r, n, now).runtime == r.runtime
    decreases n
  {
    if n > 0 && r.phase.Playing? {
      AdvanceManyKeepsRuntime(Advance(Stepped(r), now), n - 1, now);
    }
  }

  /** An event leaves an offline player's record alone, or the player came back, or just left now: in a
      game not over, exactly if it reports so. */
  ghost predicate RuntimeStep(r: Room, ev: Event, q: Room, i: nat) {
    && i < 2 && SeatsOk(r) && SeatsOk(q) && q.players[i].id == r.players[i].id
    && (!q.runtime[i].online ==>
          if r.runtime[i].online
          then q.runtime[i].offlineSince == ev.now && ev.op == PresenceOp(r.players[i].id, false)
          else q.runtime[i] == r.runtime[i] && (!Over(r.phase) ==> ev.op != PresenceOp(r.players[i].id, true)))
  }

  lemma StepRuntime(r: Room, ev: Event, i: nat)
    requires RoomOk(r) && i < 2
    ensures RuntimeStep(r, ev, Apply(r, ev), i)
  {
    ApplyKeepsOk(r, ev);
    match ev.op
    case TickOp => TickRuntime(r, ev.now);
    case PresenceOp(p, online) => PresenceRuntime(r, p, online, ev.now, i);
    case JoinOp(p) => JoinRuntime(r, p, ev.now);
    case _ =>
  }

  lemma {:induction false} AdvanceManyKeepsPlayers(r: Room, n: nat, now: int)
    requires TwoSeats(r)
    ensures var q := AdvanceMany(r, n, now);
      q.players[0].id == r.players[0].id && q.players[1].id == r.players[1].id
    decreases n
  {
    if n > 0 && r.phase.Playing? {
      AdvanceManyKeepsPlayers(Advance(Stepped(r), now), n - 1, now);
    }
  }

  lemma TickRuntime(r: Room, now: int)
    requires RoomOk(r)
    ensures var q := Tick(r, now);
      && TwoSeats(q) && q.runtime == r.runtime
      && q.players[0].id == r.players[0].id && q.players[1].id == r.players[1].id
  {
    if r.phase.Playing? && !SomeoneOffline(r) && now >= r.lastTick {
      AdvanceManyKeepsRuntime(r.(lastTick := CatchUpBase(r, now)), FramesTaken(r, now), now);
      AdvanceManyKeepsPlayers(r.(lastTick := CatchUpBase(r, now)), FramesTaken(r, now), now);
    }
  }

  lemma JoinRuntime(r: Room, p: string, now: int)
    requires RoomOk(r)
    ensures var q := Join(r, p, now).0;
      && TwoSeats(q) && q.runtime == r.runtime
      && q.players[0].id == r.players[0].id && q.players[1].id == r.players[1].id
  {
  }

  lemma PresenceRuntime(r: Room, p: string, online: bool, now: int, i: nat)
    requires RoomOk(r) && i < 2
    ensures var q := SetPresence(r, p, online, now).0;
      && TwoSeats(q) && q.players[i].id == r.players[i].id
      && (!q.runtime[i].online ==>
            if r.runtime[i].online then q.runtime[i].offlineSince == now && p == r.players[i].id && !online
            else q.runtime[i] == r.runtime[i] && (!Over(r.phase) ==> p != r.players[i].id || !online))
  {
    if p == r.players[i].id {
      assert SeatOf(r.players, p) == Some(i);
    }
  }

  ghost predicate RuntimeRun(rooms: seq<Room>, evs: seq<Event>, i: nat) {
    && |rooms| == |evs| + 1
    && i < 2
    && SeatsOk(rooms[0])
    && forall k :: 0 <= k < |evs| ==> RuntimeStep(rooms[k], evs[k], rooms[k + 1], i)
  }

  lemma RuntimeOfRun(rooms: seq<Room>, evs: seq<Event>, i: nat)
    requires IsRun(rooms, evs) && i < 2
    ensures RuntimeRun(rooms, evs, i)
  {
    forall k | 0 <= k < |evs| ensures RuntimeStep(rooms[k], evs[k], rooms[k + 1], i) {
      RunKeepsOk(rooms, evs, k);
      StepRuntime(rooms[k], evs[k], i);
    }
  }

  ghost predicate Offline(r: Room, i: nat) {
    i < 2 && SeatsOk(r) && !r.players[i].online
  }

  /** Event `j - 1` reported the player offline, and up to state `k` none reported a return. */
  ghost predicate OfflineSince(rooms: seq<Room>, evs: seq<Event>, i: nat, j: nat, k: nat) {
    && 0 < j <= k <= |evs| < |rooms|
    && Offline(rooms[k], i)
    && rooms[k].runtime[i].offlineSince == evs[j - 1].now
    && (forall m :: j <= m <= k ==> Offline(rooms[m], i))
    && evs[j - 1].op == PresenceOp(rooms[k].players[i].id, false)
    && forall m :: j <= m < k ==> evs[m].op != PresenceOp(rooms[k].players[i].id, true)
  }

  lemma {:induction false} LeftAt(rooms: seq<Room>, evs: seq<Event>, i: nat, k: nat) returns (j: nat)
    requires RuntimeRun(rooms, evs, i) && k <= |evs|
    requires rooms[0].players[i].online && Offline(rooms[k], i)
    requires forall m :: 0 <= m <= k ==> !Over(rooms[m].phase)
    ensures OfflineSince(rooms, evs, i, j, k)
  {
    assert RuntimeStep(rooms[k - 1], evs[k - 1], rooms[k - 1 + 1], i);
    if Offline(rooms[k - 1], i) {
      j := LeftAt(rooms, evs, i, k - 1);
    } else {
      j := k;
    }
  }

  /** At event `k` the clock says that player `i` has been offline, without a break, for the whole grace period. */
  ghost predicate GraceUsedUp(rooms: seq<Room>, evs: seq<Event>, i: nat, k: nat) {
    && k < |evs|
    && exists j :: OfflineSince(rooms, evs, i, j, k) && evs[k].now - evs[j - 1].now >= RECONNECT_GRACE_MS
  }

  lemma LatestBounds(rs: seq<Runtime>)
    requires |rs| == 2
    ensures forall i :: 0 <= i < 2 && !rs[i].online ==> rs[i].offlineSince <= LatestOffline(rs)
  {
    assert rs[..1] == [rs[0]] && rs[..1][..0] == [];
  }

  lemma OfflineLongEnough(rooms: seq<Room>, evs: seq<Event>, i: nat, k: nat)
    requires RuntimeRun(rooms, evs, i) && k < |evs| && rooms[0].players[i].online
    requires Offline(rooms[k], i) && forall m :: 0 <= m <= k ==> !Over(rooms[m].phase)
    requires evs[k].now - LatestOffline(rooms[k].runtime) >= RECONNECT_GRACE_MS
    ensures GraceUsedUp(rooms, evs, i, k)
  {
    LatestBounds(rooms[k].runtime);
    var j := LeftAt(rooms, evs, i, k);
  }

  lemma NeverOverBefore(rooms: seq<Room>, evs: seq<Event>, k: nat)
    requires IsRun(rooms, evs) && k <= |evs| && !Over(rooms[k].phase)
    ensures forall m :: 0 <= m <= k ==> !Over(rooms[m].phase)
  {
    forall m | 0 <= m <= k ensures !Over(rooms[m].phase) {
      if Over(rooms[m].phase) {
        ResultNeverChanges(rooms, evs, m, k);
      }
    }
  }

  /** A disconnect verdict goes only against a player who was away for the whole grace period, in favour
      of one who is online; a tick aborts a game only if both were away that long. */
  lemma GraceIsSound(rooms: seq<Room>, evs: seq<Event>, k: nat)
    requires IsRun(rooms, evs) && k < |evs|
    requires rooms[0].players[0].online && rooms[0].players[1].online
    requires rooms[k].phase.Playing?
    ensures var r, q := rooms[k], rooms[k + 1];
      && TwoSeats(r)
      && (q.phase.Finishing? && q.reason == Disconnect ==>
            exists i :: 0 <= i < 2 && r.players[1 - i].online && q.winner == r.players[1 - i].id
                          && GraceUsedUp(rooms, evs, i, k))
      && (q.phase.Aborted? && evs[k].op.TickOp? ==> GraceUsedUp(rooms, evs, 0, k) && GraceUsedUp(rooms, evs, 1, k))
  {
    RunKeepsOk(rooms, evs, k);
    RuntimeOfRun(rooms, evs, 0);
    RuntimeOfRun(rooms, evs, 1);
    NeverOverBefore(rooms, evs, k);
    var r, now := rooms[k], evs[k].now;
    if !evs[k].op.TickOp? {
      DisconnectNeedsTick(r, evs[k]);
    } else {
      TickVerdict(r, now);
      if now - LatestOffline(r.runtime) >= RECONNECT_GRACE_MS {
        if Offline(r, 0) {
          OfflineLongEnough(rooms, evs, 0, k);
        }
        if Offline(r, 1) {
          OfflineLongEnough(rooms, evs, 1, k);
        }
      }
    }
  }

  lemma DisconnectNeedsTick(r: Room, ev: Event)
    requires RoomOk(r) && r.phase.Playing? && !ev.op.TickOp?
    ensures Apply(r, ev).reason != Disconnect
  {
  }

  /** Which ticks end a game by disconnection, and how. */
  lemma TickVerdict(r: Room, now: int)
    requires RoomOk(r) && r.phase.Playing?
    ensures var q := Tick(r, now);
      && (q.reason == Disconnect || q.phase.Aborted? ==> now - LatestOffline(r.runtime) >= RECONNECT_GRACE_MS)
      && (q.reason == Disconnect ==>
            || (Offline(r, 1) && r.players[0].online && q.winner == r.players[0].id)
            || (Offline(r, 0) && r.players[1].online && q.winner == r.players[1].id))
      && (q.phase.Aborted? ==> Offline(r, 0) && Offline(r, 1))
  {
    if SomeoneOffline(r) {
      if now - LatestOffline(r.runtime) >= RECONNECT_GRACE_MS {
        GraceVerdict(r, now);
      }
    } else if now >= r.lastTick {
      CatchUpNeverDisconnects(r, now);
    }
  }

  lemma GraceVerdict(r: Room, now: int)
    requires RoomOk(r) && r.phase.Playing? && SomeoneOffline(r)
    requires now - LatestOffline(r.runtime) >= RECONNECT_GRACE_MS
    ensures var q := Tick(r, now);
      if r.players[0].online then q.winner == r.players[0].id && q.phase.Finishing? && !r.players[1].online
      else if r.players[1].online then q.winner == r.players[1].id && q.phase.Finishing?
      else q.phase.Aborted?
  {
    assert r.runtime[..1] == [r.runtime[0]] && [r.runtime[0]][..0] == [];
  }

  lemma {:induction false} AdvanceManyNeverDisconnects(r: Room, n: nat, now: int)
    requires RoomOk(r) && r.phase.Playing?
    ensures AdvanceMany(r, n, now).reason != Disconnect && !AdvanceMany(r, n, now).phase.Aborted?
    decreases n
  {
    if n > 0 {
      TickBaseIrrelevant(r, r.lastTick + FRAME_MS);
      AdvanceKeepsOk(Stepped(r), now);
      if Advance(Stepped(r), now).phase.Playing? {
        AdvanceManyNeverDisconnects(Advance(Stepped(r), now), n - 1, now);
      }
    }
  }

  lemma CatchUpNeverDisconnects(r: Room, now: int)
    requires RoomOk(r) && r.phase.Playing? && now >= r.lastTick
    ensures CatchUp(r, now).reason != Disconnect && !CatchUp(r, now).phase.Aborted?
  {
    TickBaseIrrelevant(r, CatchUpBase(r, now));
    AdvanceManyNeverDisconnects(r.(lastTick := CatchUpBase(r, now)), FramesTaken(r, now), now);
  }

  ghost predicate SameScore(r: Room, q: Room) {
    && TwoSeats(r) && TwoSeats(q) && q.frame == r.frame
    && q.players[0].hp == r.players[0].hp && q.players[1].hp == r.players[1].hp
  }

  /** While somebody is offline nothing that happens to a game moves its frame or any hp. */
  lemma OfflineStep(r: Room, ev: Event, q: Room)
    requires RoomOk(r) && r.phase.Playing? && SomeoneOffline(r) && q == Apply(r, ev)
    ensures SameScore(r, q)
  {
  }

  lemma {:induction false} SameScoreThrough(rooms: seq<Room>, i: nat, j: nat)
    requires i <= j < |rooms| && TwoSeats(rooms[i])
    requires forall k :: i <= k < j ==> SameScore(rooms[k], rooms[k + 1])
    ensures SameScore(rooms[i], rooms[j])
    decreases j - i
  {
    if i < j {
      SameScoreThrough(rooms, i, j - 1);
      assert SameScore(rooms[j - 1], rooms[j - 1 + 1]);
    }
  }

  /** As long as somebody is offline, whoever it is at each moment, the game stands still. */
  lemma FrozenThroughAbsence(rooms: seq<Room>, evs: seq<Event>, i: nat, j: nat)
    requires IsRun(rooms, evs) && i <= j <= |evs|
    requires forall k :: i <= k < j ==> rooms[k].phase.Playing? && SomeoneOffline(rooms[k])
    ensures SameScore(rooms[i], rooms[j])
  {
    RunKeepsOk(rooms, evs, i);
    forall k | i <= k < j ensures SameScore(rooms[k], rooms[k + 1]) {
      RunKeepsOk(rooms, evs, k);
      OfflineStep(rooms[k], evs[k], rooms[k + 1]);
    }
    SameScoreThrough(rooms, i, j);
  }

  /** Reporting an offline player offline again changes nothing, so the deadline never moves. */
  lemma RepeatedOfflineIsNoop(r: Room, p: string, now: int)
    requires RoomOk(r) && exists i :: 0 <= i < 2 && r.players[i].id == p && !r.players[i].online
    ensures SetPresence(r, p, false, now).0 == r
  {
    var i :| 0 <= i < 2 && r.players[i].id == p && !r.players[i].online;
    if ValidId(p) && !Over(r.phase) {
      assert SeatOf(r.players, p).value == i;
    }
  }

  // ------------------------------------------------------------------ tick arithmetic

  lemma FirstFrameTime(r: Room, now: int)
    requires RoomOk(r) && r.phase.Playing?
    ensures var q := Advance(Stepped(r), now);
      RoomOk(q) && q.lastTick == r.lastTick + 100 && q.frame == r.frame + 1 && q.startedAt == r.startedAt
  {
    TickBaseIrrelevant(r, r.lastTick + FRAME_MS);
    AdvanceHp(Stepped(r), now);
    AdvanceKeepsOk(Stepped(r), now);
  }

  lemma {:induction false} AdvanceManyTime(r: Room, n: nat, now: int)
    requires RoomOk(r) && r.phase.Playing?
    ensures var q := AdvanceMany(r, n, now);
      && q.lastTick - r.lastTick == 100 * (q.frame - r.frame)
      && r.frame <= q.frame <= r.frame + n
      && (q.phase.Playing? ==> q.frame == r.frame + n)
      && q.startedAt == r.startedAt
    decreases n
  {
    if n == 0 {
      AdvanceManyStops(r, n, now);
    } else {
      var q := Advance(Stepped(r), now);
      FirstFrameTime(r, now);
      AdvanceManyMore(r, n, now);
      if q.phase.Playing? {
        AdvanceManyTime(q, n - 1, now);
      } else {
        AdvanceManyStops(q, n - 1, now);
      }
    }
  }

  /** The frames due, ten at most, unless the game ends with one of them. */
  predicate Gains(r: Room, q: Room, due: int) {
    var frames := if due > 10 then 10 else due;
    if q.phase.Playing? then q.frame == r.frame + frames
    else q.phase.Finishing? && r.frame < q.frame <= r.frame + frames
  }

  /** A tick with everybody online advances one frame for each full 100 ms since the last one, ten at
      most, and keeps the remainder; only the end of the game cuts it short. If the clock went back, it does
      nothing. */
  lemma TickAdvancesExactly(r: Room, now: int)
    requires RoomOk(r) && r.phase.Playing? && !SomeoneOffline(r)
    ensures now < r.lastTick ==> Tick(r, now) == r
    ensures now >= r.lastTick ==> Gains(r, Tick(r, now), (now - r.lastTick) / 100)
    ensures now >= r.lastTick && Tick(r, now).phase.Playing? ==> 0 <= now - Tick(r, now).lastTick < 100
  {
    if now >= r.lastTick {
      var s := r.(lastTick := CatchUpBase(r, now));
      var n := FramesTaken(r, now);
      TickBaseIrrelevant(r, CatchUpBase(r, now));
      AdvanceManyTime(s, n, now);
      AdvanceManyNeverDisconnects(s, n, now);
      AdvanceManyEnds(s, n, now);
    }
  }

  lemma {:induction false} AdvanceManyEnds(r: Room, n: nat, now: int)
    requires RoomOk(r) && r.phase.Playing?
    ensures var q := AdvanceMany(r, n, now);
      q.phase.Playing? || (q.phase.Finishing? && q.frame > r.frame)
    decreases n
  {
    if n > 0 {
      TickBaseIrrelevant(r, r.lastTick + FRAME_MS);
      AdvanceHp(Stepped(r), now);
      AdvanceKeepsOk(Stepped(r), now);
      if Advance(Stepped(r), now).phase.Playing? {
        AdvanceManyEnds(Advance(Stepped(r), now), n - 1, now);
      }
    }
  }

  /** The game never runs faster than ten frames a second. */
  predicate TimeOk(r: Room, clock: int) {
    100 * r.frame <= r.lastTick - r.startedAt && (r.phase.Playing? ==> r.lastTick <= clock)
  }

  lemma TickKeepsTime(r: Room, now: int)
    requires RoomOk(r) && TimeOk(r, now)
    ensures TimeOk(Tick(r, now), now)
  {
    if r.phase.Playing? && !SomeoneOffline(r) && now >= r.lastTick {
      TickBaseIrrelevant(r, CatchUpBase(r, now));
      AdvanceManyTime(r.(lastTick := CatchUpBase(r, now)), FramesTaken(r, now), now);
      TickAdvancesExactly(r, now);
    }
  }

  ghost predicate TimeStep(r: Room, ev: Event, q: Room) {
    TimeOk(r, ev.now) ==> TimeOk(q, ev.now)
  }

  lemma StepKeepsTime(r: Room, ev: Event)
    requires RoomOk(r)
    ensures TimeStep(r, ev, Apply(r, ev))
  {
    if TimeOk(r, ev.now) && ev.op.TickOp? {
      TickKeepsTime(r, ev.now);
    }
  }

  /** From a fresh room and a clock that never goes back, frame x 100 ms never exceeds the time played. */
  lemma {:induction false} NeverTooFast(rooms: seq<Room>, evs: seq<Event>, k: nat)
    requires IsRun(rooms, evs) && ClockAdvances(evs) && k <= |evs|
    requires rooms[0].phase.Created? && rooms[0].lastTick == rooms[0].startedAt == 0
    ensures k > 0 ==> TimeOk(rooms[k], evs[k - 1].now)
    ensures 100 * rooms[k].frame <= rooms[k].lastTick - rooms[k].startedAt
    ensures rooms[k].frame <= 600
  {
    RunKeepsOk(rooms, evs, k);
    if k > 0 {
      NeverTooFast(rooms, evs, k - 1);
      RunKeepsOk(rooms, evs, k - 1);
      StepKeepsTime(rooms[k - 1], evs[k - 1]);
    }
  }

  /** Only ticks move the time a game counts from. */
  lemma {:induction false} BaseStays(rooms: seq<Room>, evs: seq<Event>, j: nat, k: nat)
    requires IsRun(rooms, evs) && j <= k <= |evs| && rooms[j].phase.Playing? && rooms[k].phase.Playing?
    requires forall m :: j <= m < k ==> !evs[m].op.TickOp?
    ensures rooms[k].lastTick == rooms[j].lastTick
    decreases k - j
  {
    if j < k {
      NeverOverBefore(rooms, evs, k);
      RunKeepsOk(rooms, evs, j);
      assert !Over(rooms[j + 1].phase);
      BaseStays(rooms, evs, j + 1, k);
    }
  }

  /** Time spent away is not made up for: the first tick after one that found somebody offline advances by the
      time since that tick, however long the absence was. */
  lemma PauseIsNotCaughtUp(rooms: seq<Room>, evs: seq<Event>, j: nat, k: nat)
    requires IsRun(rooms, evs) && j < k < |evs| && evs[j].op.TickOp? && evs[k].op.TickOp?
    requires forall m :: j < m < k ==> !evs[m].op.TickOp?
    requires rooms[j].phase.Playing? && SomeoneOffline(rooms[j])
    requires rooms[k].phase.Playing? && !SomeoneOffline(rooms[k]) && evs[j].now <= evs[k].now
    ensures Gains(rooms[k], rooms[k + 1], (evs[k].now - evs[j].now) / 100)
  {
    NeverOverBefore(rooms, evs, k);
    RunKeepsOk(rooms, evs, j);
    RunKeepsOk(rooms, evs, k);
    assert !Over(rooms[j + 1].phase);
    BaseStays(rooms, evs, j + 1, k);
    TickAdvancesExactly(rooms[k], evs[k].now);
  }
}
