/** What a room's events alone say about it: who has joined, who is online and since when, whose attack
    lands, when a game ends, and what the newest snapshot shows. */
module RoomEvents {
  import opened Wrappers
  import opened RoomCore
  import opened RoomRuns

  // ------------------------------------------------------------------ what the events say

  /** Has `p` asked to join? */
  ghost predicate HasAsked(evs: seq<Event>, p: string) {
    exists m :: 0 <= m < |evs| && evs[m].op == JoinOp(p)
  }

  /** What the last report about `p` said; without one, `p` counts as online. */
  function LastReport(evs: seq<Event>, p: string): bool {
    if evs == [] then true
    else
      var op := evs[|evs| - 1].op;
      if op.PresenceOp? && op.player == p then op.online else LastReport(evs[..|evs| - 1], p)
  }

  /** Since when `p` has been away: the first offline report after the last online one. */
  function AwaySince(evs: seq<Event>, p: string): Option<int> {
    if evs == [] then None
    else
      var ev := evs[|evs| - 1];
      var before := AwaySince(evs[..|evs| - 1], p);
      if ev.op == PresenceOp(p, true) then None
      else if ev.op == PresenceOp(p, false) && before.None? then Some(ev.now)
      else before
  }

  lemma {:induction false} AwayIffReported(evs: seq<Event>, p: string)
    ensures AwaySince(evs, p).None? <==> LastReport(evs, p)
    decreases |evs|
  {
    if evs != [] {
      AwayIffReported(evs[..|evs| - 1], p);
    }
  }

  // ------------------------------------------------------------------ seats

  /** Neither the players nor their connections nor who has joined. */
  ghost predicate SameSeats(r: Room, q: Room) {
    && TwoSeats(r) && TwoSeats(q) && q.runtime == r.runtime
    && forall i :: 0 <= i < 2 ==>
         && q.players[i].id == r.players[i].id
         && q.players[i].joined == r.players[i].joined
         && q.players[i].online == r.players[i].online
  }

  lemma {:induction false} AdvanceManySeats(r: Room, n: nat, now: int)
    requires TwoSeats(r)
    ensures SameSeats(r, AdvanceMany(r, n, now))
    decreases n
  {
    if n > 0 && r.phase.Playing? {
      AdvanceManySeats(Advance(Stepped(r), now), n - 1, now);
    }
  }

  lemma TickSeats(r: Room, now: int)
    requires RoomOk(r)
    ensures SameSeats(r, Tick(r, now))
  {
    if r.phase.Playing? && !SomeoneOffline(r) && now >= r.lastTick {
      AdvanceManySeats(r.(lastTick := CatchUpBase(r, now)), FramesTaken(r, now), now);
    }
  }

  ghost predicate SameIds(r: Room, q: Room) {
    TwoSeats(r) && TwoSeats(q) && q.players[0].id == r.players[0].id && q.players[1].id == r.players[1].id
  }

  lemma StepIds(r: Room, ev: Event)
    requires RoomOk(r)
    ensures SameIds(r, Apply(r, ev))
  {
    match ev.op
    case TickOp => TickSeats(r, ev.now);
    case JoinOp(p) => JoinIds(r, p, ev.now);
    case _ =>
  }

  lemma JoinIds(r: Room, p: string, now: int)
    requires RoomOk(r)
    ensures SameIds(r, Join(r, p, now).0)
  {
  }

  lemma SeatIs(r: Room, i: nat)
    requires SeatsOk(r) && i < 2
    ensures SeatOf(r.players, r.players[i].id) == Some(i)
  {
  }

  // ------------------------------------------------------------------ one step

  /** The connection of player `i` is what the events so far say. */
  ghost predicate ConnectionIsTold(r: Room, i: nat, evs: seq<Event>) {
    && i < 2 && SeatsOk(r)
    && match AwaySince(evs, r.players[i].id)
       case None => r.players[i].online
       case Some(t) => !r.players[i].online && r.runtime[i].offlineSince == t
  }

  lemma PresenceTold(r: Room, p: string, online: bool, now: int, i: nat, evs: seq<Event>)
    requires RoomOk(r) && !Over(r.phase) && ConnectionIsTold(r, i, evs)
    ensures ConnectionIsTold(SetPresence(r, p, online, now).0, i, evs + [Event(now, PresenceOp(p, online))])
  {
    PresenceKeepsOk(r, p, online, now);
    SeatIs(r, i);
    assert (evs + [Event(now, PresenceOp(p, online))])[..|evs|] == evs;
  }

  predicate SameConnection(r: Room, q: Room, i: nat) {
    && i < |r.players| && i < |q.players| && i < |r.runtime| && i < |q.runtime|
    && q.players[i].id == r.players[i].id && q.players[i].online == r.players[i].online
    && q.runtime[i] == r.runtime[i]
  }

  lemma JoinKeepsConnection(r: Room, p: string, now: int, i: nat)
    requires RoomOk(r) && i < 2
    ensures SameConnection(r, Join(r, p, now).0, i)
  {
  }

  lemma OthersKeepConnection(r: Room, ev: Event, i: nat)
    requires RoomOk(r) && i < 2 && !ev.op.PresenceOp?
    ensures SameConnection(r, Apply(r, ev), i)
  {
    match ev.op
    case TickOp => TickSeats(r, ev.now);
    case JoinOp(p) => JoinKeepsConnection(r, p, ev.now, i);
    case _ =>
  }

  lemma OthersTold(r: Room, ev: Event, i: nat, evs: seq<Event>)
    requires RoomOk(r) && ConnectionIsTold(r, i, evs) && !ev.op.PresenceOp?
    ensures ConnectionIsTold(Apply(r, ev), i, evs + [ev])
  {
    ApplyKeepsOk(r, ev);
    assert (evs + [ev])[..|evs|] == evs;
    OthersKeepConnection(r, ev, i);
  }

  lemma StepTold(r: Room, ev: Event, i: nat, evs: seq<Event>)
    requires RoomOk(r) && !Over(r.phase) && ConnectionIsTold(r, i, evs)
    ensures ConnectionIsTold(Apply(r, ev), i, evs + [ev])
  {
    match ev.op
    case PresenceOp(p, online) => PresenceTold(r, p, online, ev.now, i, evs);
    case _ => OthersTold(r, ev, i, evs);
  }

  lemma {:induction false} RunTold(rooms: seq<Room>, evs: seq<Event>, k: nat, i: nat)
    requires IsRun(rooms, evs) && k <= |evs| && i < 2
    requires rooms[0].players[0].online && rooms[0].players[1].online
    requires !Over(rooms[k].phase)
    ensures ConnectionIsTold(rooms[k], i, evs[..k]) && SameIds(rooms[0], rooms[k])
  {
    if k > 0 {
      NeverOverBefore(rooms, evs, k);
      RunTold(rooms, evs, k - 1, i);
      RunKeepsOk(rooms, evs, k - 1);
      StepTold(rooms[k - 1], evs[k - 1], i, evs[..k - 1]);
      StepIds(rooms[k - 1], evs[k - 1]);
      assert evs[..k - 1] + [evs[k - 1]] == evs[..k];
    }
  }

  // ------------------------------------------------------------------ who is online

  /** In every run of a game not over: a player is online exactly if the last report naming that player
      says so, or there was none. */
  lemma OnlineIsLastReport(rooms: seq<Room>, evs: seq<Event>, k: nat, i: nat)
    requires IsRun(rooms, evs) && k <= |evs| && i < 2
    requires rooms[0].players[0].online && rooms[0].players[1].online
    requires !Over(rooms[k].phase)
    ensures TwoSeats(rooms[k]) && rooms[k].players[i].online == LastReport(evs[..k], rooms[0].players[i].id)
  {
    RunTold(rooms, evs, k, i);
    AwayIffReported(evs[..k], rooms[0].players[i].id);
  }

  /** What a tick at `now` decides about players who are away since these moments; moments before zero
      count as zero. */
  datatype Absence = Nobody | StillTime | Walkover(seat: nat) | BothGone

  function Judged(a: Option<int>, b: Option<int>, now: int): Absence {
    if a.None? && b.None? then Nobody
    else if a.Some? && (now - a.value < 30000 || now < 30000) then StillTime
    else if b.Some? && (now - b.value < 30000 || now < 30000) then StillTime
    else if a.Some? && b.Some? then BothGone
    else Walkover(if a.None? then 0 else 1)
  }

  lemma LatestOfTwo(rs: seq<Runtime>)
    requires |rs| == 2
    ensures var a := if rs[0].online then 0 else Max(0, rs[0].offlineSince);
      LatestOffline(rs) == if rs[1].online then a else Max(a, rs[1].offlineSince)
  {
    assert rs[..1] == [rs[0]] && [rs[0]][..0] == [];
    assert LatestOffline([rs[0]]) == if rs[0].online then 0 else Max(0, rs[0].offlineSince);
  }

  lemma GraceDecides(r: Room, now: int)
    requires RoomOk(r) && r.phase.Playing?
    ensures var q := Tick(r, now);
      match Judged(if r.players[0].online then None else Some(r.runtime[0].offlineSince),
                   if r.players[1].online then None else Some(r.runtime[1].offlineSince), now)
      case Nobody => q.reason != Disconnect && !q.phase.Aborted?
      case StillTime => q.phase.Playing? && SameScore(r, q)
      case Walkover(i) => i < 2 && q.phase.Finishing? && q.reason == Disconnect && q.winner == r.players[i].id
      case BothGone => q.phase.Aborted?
  {
    LatestOfTwo(r.runtime);
    if SomeoneOffline(r) {
      OnlineSeat(r);
    }
    if !SomeoneOffline(r) && now >= r.lastTick {
      CatchUpNeverDisconnects(r, now);
    }
  }

  /** From the events alone, exactly when a tick ends a running game because of absence, and how: everybody
      away must have been away for 30 s without a report of coming back. Until then the game stands still. */
  lemma AbsenceDecidesIff(rooms: seq<Room>, evs: seq<Event>, k: nat)
    requires IsRun(rooms, evs) && k < |evs| && evs[k].op.TickOp? && rooms[k].phase.Playing?
    requires rooms[0].players[0].online && rooms[0].players[1].online
    ensures var a, b := rooms[0].players[0].id, rooms[0].players[1].id;
      var q := rooms[k + 1];
      match Judged(AwaySince(evs[..k], a), AwaySince(evs[..k], b), evs[k].now)
      case Nobody => q.reason != Disconnect && !q.phase.Aborted?
      case StillTime => q.phase.Playing? && SameScore(rooms[k], q)
      case Walkover(i) => q.phase.Finishing? && q.reason == Disconnect && q.winner == if i == 0 then a else b
      case BothGone => q.phase.Aborted?
  {
    RunTold(rooms, evs, k, 0);
    RunTold(rooms, evs, k, 1);
    RunKeepsOk(rooms, evs, k);
    GraceDecides(rooms[k], evs[k].now);
  }

  // ------------------------------------------------------------------ who has joined

  ghost predicate JoinIsTold(r: Room, i: nat, evs: seq<Event>) {
    i < 2 && SeatsOk(r) && (r.players[i].joined <==> HasAsked(evs, r.players[i].id))
  }

  lemma AskedMore(evs: seq<Event>, ev: Event, p: string)
    ensures HasAsked(evs + [ev], p) <==> HasAsked(evs, p) || ev.op == JoinOp(p)
  {
    if HasAsked(evs, p) {
      var m :| 0 <= m < |evs| && evs[m].op == JoinOp(p);
      assert (evs + [ev])[m].op == JoinOp(p);
    }
    if ev.op == JoinOp(p) {
      assert (evs + [ev])[|evs|].op == JoinOp(p);
    }
  }

  /** A join seats the player who asked, and nobody else. */
  lemma JoinSeats(r: Room, p: string, now: int, i: nat)
    requires RoomOk(r) && !Over(r.phase) && i < 2
    ensures var q := Join(r, p, now).0;
      SameIds(r, q) && q.players[i].joined == (r.players[i].joined || p == r.players[i].id)
  {
    SeatIs(r, 0);
    SeatIs(r, 1);
  }

  lemma PresenceSeatsNobody(r: Room, p: string, online: bool, now: int)
    requires RoomOk(r)
    ensures var q := SetPresence(r, p, online, now).0;
      SameIds(r, q) && q.players[0].joined == r.players[0].joined && q.players[1].joined == r.players[1].joined
  {
  }

  lemma OthersSeatNobody(r: Room, ev: Event)
    requires RoomOk(r) && !ev.op.JoinOp?
    ensures var q := Apply(r, ev);
      SameIds(r, q) && q.players[0].joined == r.players[0].joined && q.players[1].joined == r.players[1].joined
  {
    match ev.op
    case TickOp => TickSeats(r, ev.now);
    case PresenceOp(p, online) => PresenceSeatsNobody(r, p, online, ev.now);
    case _ =>
  }

  lemma StepSeats(r: Room, ev: Event, i: nat)
    requires RoomOk(r) && !Over(r.phase) && i < 2
    ensures var q := Apply(r, ev);
      SameIds(r, q) && q.players[i].joined == (r.players[i].joined || ev.op == JoinOp(r.players[i].id))
  {
    if ev.op.JoinOp? {
      JoinSeats(r, ev.op.player, ev.now, i);
    } else {
      OthersSeatNobody(r, ev);
    }
  }

  lemma StepJoins(r: Room, ev: Event, i: nat, evs: seq<Event>)
    requires RoomOk(r) && !Over(r.phase) && JoinIsTold(r, i, evs)
    ensures JoinIsTold(Apply(r, ev), i, evs + [ev])
  {
    ApplyKeepsOk(r, ev);
    AskedMore(evs, ev, r.players[i].id);
    StepSeats(r, ev, i);
  }

  /** In every run of a fresh room, as long as the game is not over: a player has joined exactly if that
      player has asked to, and the game is on exactly if both have. */
  lemma {:induction false} JoinedIffAsked(rooms: seq<Room>, evs: seq<Event>, k: nat, i: nat)
    requires IsRun(rooms, evs) && k <= |evs| && i < 2 && !Over(rooms[k].phase)
    requires rooms[0].phase.Created?
    ensures JoinIsTold(rooms[k], i, evs[..k]) && SameIds(rooms[0], rooms[k])
    ensures rooms[k].phase.Playing? <==>
      HasAsked(evs[..k], rooms[0].players[0].id) && HasAsked(evs[..k], rooms[0].players[1].id)
    decreases k, i
  {
    if k > 0 {
      NeverOverBefore(rooms, evs, k);
      RunKeepsOk(rooms, evs, k - 1);
      RunKeepsOk(rooms, evs, k);
      StepIds(rooms[k - 1], evs[k - 1]);
      assert evs[..k - 1] + [evs[k - 1]] == evs[..k];
      JoinedIffAsked(rooms, evs, k - 1, 0);
      StepJoins(rooms[k - 1], evs[k - 1], 0, evs[..k - 1]);
      JoinedIffAsked(rooms, evs, k - 1, 1);
      StepJoins(rooms[k - 1], evs[k - 1], 1, evs[..k - 1]);
    }
  }

  // ------------------------------------------------------------------ whose attack lands

  /** An attack of `p` was accepted and no frame has advanced since. */
  ghost predicate AttackWaits(rooms: seq<Room>, evs: seq<Event>, k: nat, p: string)
    requires k <= |evs| < |rooms|
  {
    exists m :: 0 <= m < k && Attacks(rooms, evs, m, p) && rooms[m].frame == rooms[k].frame
  }

  ghost predicate Attacks(rooms: seq<Room>, evs: seq<Event>, m: nat, p: string)
    requires m < |evs| < |rooms|
  {
    evs[m].op == SubmitOp(p, Attack) && rooms[m].phase.Playing?
  }

  lemma {:induction false} FramesGrow(rooms: seq<Room>, evs: seq<Event>, j: nat, k: nat)
    requires IsRun(rooms, evs) && j <= k <= |evs|
    ensures rooms[j].frame <= rooms[k].frame
  {
    if j < k {
      FramesGrow(rooms, evs, j, k - 1);
      RunKeepsOk(rooms, evs, k - 1);
      StepHp(rooms[k - 1], evs[k - 1], 0);
    }
  }

  lemma WaitsOneMore(rooms: seq<Room>, evs: seq<Event>, k: nat, p: string)
    requires IsRun(rooms, evs) && k < |evs|
    ensures AttackWaits(rooms, evs, k + 1, p) <==>
      rooms[k + 1].frame == rooms[k].frame && (AttackWaits(rooms, evs, k, p) || Attacks(rooms, evs, k, p))
  {
    FramesGrow(rooms, evs, k, k + 1);
    if AttackWaits(rooms, evs, k + 1, p) {
      var m :| 0 <= m < k + 1 && Attacks(rooms, evs, m, p) && rooms[m].frame == rooms[k + 1].frame;
      FramesGrow(rooms, evs, m, k);
    }
  }

  /** A step that advances no frame leaves the pending attacks alone, but for the one it accepts. */
  ghost predicate PendingStep(r: Room, ev: Event, q: Room) {
    && TwoSeats(r) && TwoSeats(q)
    && if q.frame > r.frame then q.pending == [false, false]
       else forall i :: 0 <= i < 2 ==>
              q.pending[i] == (r.pending[i] || (ev.op == SubmitOp(r.players[i].id, Attack) && r.phase.Playing?))
  }

  lemma SubmitPending(r: Room, p: string, kind: InputKind, now: int)
    requires RoomOk(r)
    ensures PendingStep(r, Event(now, SubmitOp(p, kind)), Submit(r, p, kind).0)
  {
    SeatIs(r, 0);
    SeatIs(r, 1);
  }

  lemma {:induction false} AdvanceManyPending(r: Room, n: nat, now: int)
    requires RoomOk(r) && r.phase.Playing?
    ensures var q := AdvanceMany(r, n, now);
      TwoSeats(q) && q.frame >= r.frame && q.pending == if q.frame > r.frame then [false, false] else r.pending
    decreases n
  {
    if n > 0 {
      TickBaseIrrelevant(r, r.lastTick + FRAME_MS);
      AdvanceHp(Stepped(r), now);
      AdvanceKeepsOk(Stepped(r), now);
      if Advance(Stepped(r), now).phase.Playing? {
        AdvanceManyPending(Advance(Stepped(r), now), n - 1, now);
      }
    }
  }

  lemma TickPending(r: Room, now: int)
    requires RoomOk(r)
    ensures PendingStep(r, Event(now, TickOp), Tick(r, now))
  {
    if r.phase.Playing? && !SomeoneOffline(r) && now >= r.lastTick {
      TickBaseIrrelevant(r, CatchUpBase(r, now));
      AdvanceManyPending(r.(lastTick := CatchUpBase(r, now)), FramesTaken(r, now), now);
    }
  }

  lemma StepPending(r: Room, ev: Event)
    requires RoomOk(r)
    ensures PendingStep(r, ev, Apply(r, ev))
  {
    match ev.op
    case TickOp => TickPending(r, ev.now);
    case SubmitOp(p, kind) => SubmitPending(r, p, kind, ev.now);
    case _ =>
  }

  lemma {:induction false} PendingIsWaiting(rooms: seq<Room>, evs: seq<Event>, k: nat, i: nat)
    requires IsRun(rooms, evs) && k <= |evs| && i < 2 && rooms[0].pending == [false, false]
    ensures SameIds(rooms[0], rooms[k])
    ensures rooms[k].pending[i] <==> AttackWaits(rooms, evs, k, rooms[0].players[i].id)
  {
    if k > 0 {
      PendingIsWaiting(rooms, evs, k - 1, i);
      RunKeepsOk(rooms, evs, k - 1);
      StepIds(rooms[k - 1], evs[k - 1]);
      StepPending(rooms[k - 1], evs[k - 1]);
      StepHp(rooms[k - 1], evs[k - 1], 0);
      WaitsOneMore(rooms, evs, k - 1, rooms[0].players[i].id);
    }
  }

  /** In every run, from the events alone: a player loses 10 hp in a step exactly if a frame is advanced in
      it and an attack of the other player was accepted since the last frame advanced; otherwise none. */
  lemma AttacksHurtTheOther(rooms: seq<Room>, evs: seq<Event>, k: nat, i: nat)
    requires IsRun(rooms, evs) && k < |evs| && i < 2 && rooms[0].pending == [false, false]
    ensures SameIds(rooms[0], rooms[k]) && TwoSeats(rooms[k + 1])
    ensures var struck := rooms[k + 1].frame > rooms[k].frame
        && AttackWaits(rooms, evs, k, rooms[0].players[1 - i].id);
      rooms[k + 1].players[i].hp == rooms[k].players[i].hp - if struck then 10 else 0
    ensures !evs[k].op.TickOp? ==> rooms[k + 1].players[i].hp == rooms[k].players[i].hp
  {
    PendingIsWaiting(rooms, evs, k, 1 - i);
    RunKeepsOk(rooms, evs, k);
    StepHp(rooms[k], evs[k], i);
    OnlyTicksHurt(rooms[k], evs[k]);
  }

  lemma OnlyTicksHurt(r: Room, ev: Event)
    requires RoomOk(r)
    ensures !ev.op.TickOp? ==> Apply(r, ev).frame == r.frame
  {
  }
}
