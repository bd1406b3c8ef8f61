/** Every step keeps the hub's invariant, and what follows for a client that resumes. */
module StreamResume {
  import opened Wrappers
  import opened Seqs
  import opened RoomCore
  import opened RoomRuns
  import opened RoomHistory
  import opened StreamText
  import opened StreamCore
  import opened StreamProtocol

  // ------------------------------------------------------------------ what a write adds

  lemma StatesMore(got: seq<Sent>, m: Sent)
    ensures States(got + [m]) == States(got) + if m.StateSent? then [m.s] else []
  {
    assert (got + [m])[..|got|] == got;
  }

  lemma {:induction false} NoStates(got: seq<Sent>, i: nat)
    requires States(got) == [] && i < |got|
    ensures !got[i].StateSent?
  {
    if i < |got| - 1 {
      NoStates(got[..|got| - 1], i);
    }
  }

  lemma OtherWrite(t: Track, got: seq<Sent>, m: Sent)
    requires Received(t, got) && !m.StateSent?
    requires m.ResetSent? ==> t.stage.Waiting?
    ensures Received(t, got + [m])
  {
    StatesMore(got, m);
    if m.ResetSent? {
      forall i | 0 <= i < |got| ensures !got[i].StateSent? {
        NoStates(got, i);
      }
    }
  }

  lemma LiveWrite(t: Track, got: seq<Sent>, s: Snapshot)
    requires Received(t, got) && LiveStage(t) && MayPush(t, s.frame)
    ensures Received(t, got + [StateSent(s)])
  {
    StatesMore(got, StateSent(s));
  }

  // ------------------------------------------------------------------ subscribers and rooms

  lemma SubscribeKeepsInv(s: Sys, player: string, room: string, from: Option<int>, malformed: bool)
    requires SysInv(s)
    ensures SysInv(s.(hub := Subscribed(s.hub, player, room, from, malformed),
                      got := s.got[s.hub.nextId := []],
                      tracks := s.tracks[s.hub.nextId := FirstTrack(player, room, from, malformed)]))
  {
    var id := s.hub.nextId;
    assert id !in s.tracks;
    var t := FirstTrack(player, room, from, malformed);
    NewTrack(s.tracks, s.got, s.world, s.seen, id, t);
    NewSubscriberLinked(s.hub, s.tracks, s.work, player, room, from, malformed);
    if s.work.Some? {
      WorkSeesOnly(s.work.value, s.tracks, s.tracks[id := t]);
    }
  }

  lemma NewTrack(tracks: map<nat, Track>, got: map<nat, seq<Sent>>, world: map<string, Room>, seen: set<string>,
                 id: nat, t: Track)
    requires AllReceived(tracks, got) && AllBehind(tracks, world, seen)
    requires t.stage.Waiting? || (t.stage.Direct? && t.since.None?)
    ensures AllReceived(tracks[id := t], got[id := []]) && AllBehind(tracks[id := t], world, seen)
  {
  }

  lemma NewSubscriberLinked(h: Hub, tracks: map<nat, Track>, work: Option<Work>, player: string, room: string,
                            from: Option<int>, malformed: bool)
    requires AllLinked(h.subs, tracks, work) && h.nextId !in tracks
    ensures AllLinked(Subscribed(h, player, room, from, malformed).subs,
                      tracks[h.nextId := FirstTrack(player, room, from, malformed)], work)
  {
  }

  /** A list of work stays in order while the tracks it mentions stay as they are. */
  lemma WorkSeesOnly(w: Work, tracks: map<nat, Track>, more: map<nat, Track>)
    requires WorkOk(w, tracks)
    requires forall id :: id in tracks ==> id in more && more[id] == tracks[id]
    ensures WorkOk(w, more)
  {
    forall f | f in w.fills ensures FillOk(f, more) {
      assert FillOk(f, tracks);
    }
    forall p | p in w.polls ensures PollOk(p, more) {
      assert PollOk(p, tracks);
    }
  }

  lemma FrameGrows(r: Room, ev: Event)
    requires RoomOk(r)
    ensures RoomOk(Apply(r, ev)) && Apply(r, ev).frame >= r.frame
  {
    ApplyKeepsOk(r, ev);
    StepHp(r, ev, 0);
  }

  lemma RoomEvKeepsInv(s: Sys, room: string, e: Event)
    requires SysInv(s) && Enabled(s, RoomEv(room, e))
    ensures SysInv(s.(world := s.world[room := Apply(s.world[room], e)]))
  {
    FrameGrows(s.world[room], e);
    RoomMovesOn(s.tracks, s.world, s.seen, room, Apply(s.world[room], e));
  }

  lemma RoomMovesOn(tracks: map<nat, Track>, world: map<string, Room>, seen: set<string>, room: string, q: Room)
    requires AllBehind(tracks, world, seen) && room in world && RoomOk(q) && q.frame >= world[room].frame
    ensures AllBehind(tracks, world[room := q], seen)
  {
    forall id | id in tracks ensures Behind(tracks[id], world[room := q], seen) {
      assert Behind(tracks[id], world, seen);
    }
  }

  lemma RoomBornKeepsBehind(tracks: map<nat, Track>, world: map<string, Room>, seen: set<string>, room: string, r: Room)
    requires AllBehind(tracks, world, seen) && room !in seen && RoomOk(r)
    ensures AllBehind(tracks, world[room := r], seen + {room})
  {
    forall id | id in tracks ensures Behind(tracks[id], world[room := r], seen + {room}) {
      assert Behind(tracks[id], world, seen);
    }
  }

  lemma RoomGoneKeepsBehind(tracks: map<nat, Track>, world: map<string, Room>, seen: set<string>, room: string)
    requires AllBehind(tracks, world, seen)
    ensures AllBehind(tracks, world - {room}, seen)
  {
    forall id | id in tracks ensures Behind(tracks[id], world - {room}, seen) {
      assert Behind(tracks[id], world, seen);
    }
  }

  // ------------------------------------------------------------------ the start of a tick

  lemma BeginKeepsInv(s: Sys, now: int, plan: Plan, order: seq<string>)
    requires SysInv(s) && Enabled(s, BeginEv(now, plan, order))
    ensures var subs := AllClocked(s.hub, now).subs;
      && (forall id :: id in plan.fills ==> id in subs && WantsBackfill(subs[id]))
      && (forall room :: room in order ==> room in plan.polls)
      && SysInv(s.(hub := AllClocked(s.hub, now),
                   work := Some(Work(now, FillsFor(subs, plan.fills), PollsFor(plan.polls, order), plan.readies,
                                     plan.pings,
                                     Report(map[], {}, map[], Elems(plan.readies), Elems(plan.pings), {})))))
  {
    var subs := AllClocked(s.hub, now).subs;
    PlanPolls(subs, now, plan, order);
    var w := Work(now, FillsFor(subs, plan.fills), PollsFor(plan.polls, order), plan.readies, plan.pings,
                  Report(map[], {}, map[], Elems(plan.readies), Elems(plan.pings), {}));
    ClockedLinks(s.hub.subs, s.tracks, now, Some(w));
    ClockedLinks(s.hub.subs, s.tracks, now, None);
    PlannedWorkOk(subs, s.tracks, now, plan, order, w);
  }

  lemma PlannedWorkOk(subs: map<nat, Sub>, tracks: map<nat, Track>, now: int, plan: Plan, order: seq<string>, w: Work)
    requires AllLinked(subs, tracks, None) && IsPlan(subs, now, plan)
    requires (forall id :: id in plan.fills ==> id in subs && WantsBackfill(subs[id]))
      && (forall room :: room in order ==> room in plan.polls)
    requires w == Work(now, FillsFor(subs, plan.fills), PollsFor(plan.polls, order), plan.readies, plan.pings,
                       Report(map[], {}, map[], Elems(plan.readies), Elems(plan.pings), {}))
    ensures WorkOk(w, tracks)
  {
    FillsStart(subs, tracks, plan.fills);
    PollsStart(subs, tracks, plan.polls, order);
    assert forall id :: id in plan.readies || id in plan.pings ==> id in subs;
  }

  lemma ClockedLinks(subs: map<nat, Sub>, tracks: map<nat, Track>, now: int, work: Option<Work>)
    requires AllLinked(subs, tracks, None)
    ensures var clocked := map id | id in subs :: Clocked(subs[id], now);
      && AllLinked(clocked, tracks, work)
      && forall id :: id in clocked ==>
           if WantsBackfill(clocked[id]) then tracks[id].stage.Waiting? else LiveStage(tracks[id])
  {
    forall id | id in subs ensures Linked(Clocked(subs[id], now), tracks[id], id, work)
      && (if WantsBackfill(Clocked(subs[id], now)) then tracks[id].stage.Waiting? else LiveStage(tracks[id]))
    {
      assert Linked(subs[id], tracks[id], id, None);
    }
  }

  lemma FillsStart(subs: map<nat, Sub>, tracks: map<nat, Track>, ids: seq<nat>)
    requires FillsOk(subs, ids) && AllLinked(subs, tracks, None)
    ensures FillsInOrder(FillsFor(subs, ids), tracks)
  {
    var fills := FillsFor(subs, ids);
    forall f | f in fills ensures FillOk(f, tracks) {
      var k :| 0 <= k < |fills| && fills[k] == f;
      assert ids[k] in ids;
      assert Linked(subs[ids[k]], tracks[ids[k]], ids[k], None);
    }
  }

  lemma PollsStart(subs: map<nat, Sub>, tracks: map<nat, Track>, polls: map<string, seq<nat>>, order: seq<string>)
    requires PollsOk(subs, polls) && AllLinked(subs, tracks, None)
    requires forall room :: room in order ==> room in polls
    ensures forall p :: p in PollsFor(polls, order) ==> PollOk(p, tracks)
  {
    forall p | p in PollsFor(polls, order) ensures PollOk(p, tracks) {
      var k :| 0 <= k < |order| && PollsFor(polls, order)[k] == p;
      forall id | id in p.ids ensures id in tracks && tracks[id].room == p.room && LiveStage(tracks[id]) {
        assert IsLive(subs, id) && subs[id].room == p.room;
        assert Linked(subs[id], tracks[id], id, None);
      }
    }
  }

  // ------------------------------------------------------------------ back-fills

  /** A back-fill whose frames are under way. */
  predicate UnderWay(f: Fill) {
    f.Frames? || f.NoteFrame?
  }

  /** Work that still lists every answered back-fill, and reports at least as much. */
  ghost predicate WorkGrows(w: Work, w': Work) {
    && (forall f :: f in w.fills && UnderWay(f) ==> f in w'.fills)
    && w.report.failed <= w'.report.failed
    && w.report.filled.Keys <= w'.report.filled.Keys
  }

  lemma LinksCarry(subs: map<nat, Sub>, tracks: map<nat, Track>, w: Work, w': Work)
    requires AllLinked(subs, tracks, Some(w)) && WorkGrows(w, w')
    ensures AllLinked(subs, tracks, Some(w'))
  {
    forall id | id in subs ensures Linked(subs[id], tracks[id], id, Some(w')) {
      assert Linked(subs[id], tracks[id], id, Some(w));
    }
  }

  /** The same when the head of the list is done with, or replaced, and its subscription moves on to `t`. */
  lemma LinksCarryPast(subs: map<nat, Sub>, tracks: map<nat, Track>, w: Work, w': Work, id: nat, t: Track)
    requires AllLinked(subs, tracks, Some(w)) && w.fills != [] && w.fills[0].id == id
    requires forall f :: f in w.fills[1..] ==> f in w'.fills
    requires w.report.failed <= w'.report.failed && w.report.filled.Keys <= w'.report.filled.Keys
    requires id in subs ==> Linked(subs[id], t, id, Some(w'))
    ensures AllLinked(subs, tracks[id := t], Some(w'))
  {
    forall k | k in subs && k != id ensures Linked(subs[k], tracks[k], k, Some(w')) {
      assert Linked(subs[k], tracks[k], k, Some(w));
      assert forall f :: f in w.fills ==> f == w.fills[0] || f in w.fills[1..];
    }
  }

  lemma RestInOrder(fills: seq<Fill>, tracks: map<nat, Track>)
    requires FillsInOrder(fills, tracks) && fills != []
    ensures FillsInOrder(fills[1..], tracks)
  {
    assert forall f :: f in fills[1..] ==> f in fills;
  }

  /** The head's subscription may change its track: nothing else on the list mentions it. */
  lemma RestIgnoresHead(w: Work, tracks: map<nat, Track>, t: Track)
    requires WorkOk(w, tracks) && w.fills != [] && w.fills[0].id in tracks
    requires !LiveStage(tracks[w.fills[0].id])
    ensures WorkOk(w.(fills := w.fills[1..]), tracks[w.fills[0].id := t])
  {
    var id, rest := w.fills[0].id, w.fills[1..];
    var more := tracks[id := t];
    forall f | f in rest ensures FillOk(f, more) {
      var k :| 0 <= k < |rest| && rest[k] == f;
      assert w.fills[k + 1] == f && f in w.fills && f.id != id;
      assert FillOk(f, tracks);
    }
    forall p | p in w.polls ensures PollOk(p, more) {
      assert PollOk(p, tracks);
    }
  }

  lemma WithHead(f: Fill, rest: seq<Fill>, tracks: map<nat, Track>)
    requires FillsInOrder(rest, tracks) && FillOk(f, tracks)
    requires forall g :: g in rest ==> g.id != f.id
    ensures FillsInOrder([f] + rest, tracks)
  {
  }

  lemma HeadIsAlone(fills: seq<Fill>, tracks: map<nat, Track>)
    requires FillsInOrder(fills, tracks) && fills != []
    ensures forall g :: g in fills[1..] ==> g.id != fills[0].id
  {
  }

  /** The back-fill at the head is put off to the next tick, or its connection is lost. */
  lemma DropHead(s: Sys, w: Work, hub: Hub, report: Report)
    requires SysInv(s) && s.work == Some(w) && w.fills != [] && !UnderWay(w.fills[0])
    requires hub.subs == s.hub.subs && hub.nextId == s.hub.nextId
    requires report.filled == w.report.filled && w.report.failed <= report.failed
    ensures SysInv(NextFill(s.(hub := hub), w, report))
  {
    var w' := w.(fills := w.fills[1..], report := report);
    RestInOrder(w.fills, s.tracks);
    LinksCarry(s.hub.subs, s.tracks, w, w');
  }

  lemma ReplaceHead(s: Sys, w: Work, f: Fill)
    requires SysInv(s) && s.work == Some(w) && w.fills != [] && !UnderWay(w.fills[0])
    requires FillOk(f, s.tracks) && f.id == w.fills[0].id
    ensures SysInv(FillOn(s, w, f))
  {
    var w' := w.(fills := [f] + w.fills[1..]);
    RestInOrder(w.fills, s.tracks);
    HeadIsAlone(w.fills, s.tracks);
    WithHead(f, w.fills[1..], s.tracks);
    assert forall g :: g in w.fills ==> g == w.fills[0] || g in w'.fills;
    LinksCarry(s.hub.subs, s.tracks, w, w');
  }

  /** The head of the list goes on as `f`, and its subscription as `t`. */
  lemma HeadReplaced(w: Work, w': Work, tracks: map<nat, Track>, t: Track, f: Fill)
    requires WorkOk(w, tracks) && w.fills != [] && f.id == w.fills[0].id && f.id in tracks
    requires !LiveStage(tracks[f.id]) && FillOk(f, tracks[f.id := t])
    requires w' == w.(fills := [f] + w.fills[1..])
    ensures WorkOk(w', tracks[f.id := t])
  {
    HeadIsAlone(w.fills, tracks);
    RestIgnoresHead(w, tracks, t);
    WithHead(f, w.fills[1..], tracks[f.id := t]);
  }

  /** The same, having received `received`. */
  lemma HeadGoesOn(s: Sys, w: Work, hub: Hub, t: Track, received: seq<Sent>, f: Fill)
    requires SysInv(s) && s.work == Some(w) && w.fills != [] && f.id == w.fills[0].id && f.id in s.tracks
    requires hub.subs == s.hub.subs && hub.nextId == s.hub.nextId
    requires !LiveStage(s.tracks[f.id]) && FillOk(f, s.tracks[f.id := t]) && UnderWay(f)
    requires t.stage == Queued(f.snaps, t.stage.log, f.sent) && t == s.tracks[f.id].(stage := t.stage)
    requires Received(t, received) && Behind(t, s.world, s.seen)
    ensures SysInv(FillOn(s.(hub := hub, got := s.got[f.id := received], tracks := s.tracks[f.id := t]), w, f))
  {
    var w' := w.(fills := [f] + w.fills[1..]);
    HeadReplaced(w, w', s.tracks, t, f);
    assert w'.fills[0] == f;
    if f.id in s.hub.subs {
      assert Linked(s.hub.subs[f.id], s.tracks[f.id], f.id, s.work);
    }
    LinksCarryPast(s.hub.subs, s.tracks, w, w', f.id, t);
    HeadReceives(s.tracks, s.got, s.world, s.seen, f.id, t, received);
  }

  lemma SameGot(s: Sys, id: nat)
    requires id in s.got
    ensures s.got[id := s.got[id]] == s.got
  {
  }

  /** The same, having received nothing more. */
  lemma HeadGoesOnUnread(s: Sys, w: Work, hub: Hub, t: Track, f: Fill)
    requires SysInv(s) && s.work == Some(w) && w.fills != [] && f.id == w.fills[0].id && f.id in s.tracks
    requires f.id in s.got && hub.subs == s.hub.subs && hub.nextId == s.hub.nextId
    requires !LiveStage(s.tracks[f.id]) && FillOk(f, s.tracks[f.id := t]) && UnderWay(f)
    requires t.stage == Queued(f.snaps, t.stage.log, f.sent) && t == s.tracks[f.id].(stage := t.stage)
    requires Received(t, s.got[f.id]) && Behind(t, s.world, s.seen)
    ensures SysInv(FillOn(s.(hub := hub, tracks := s.tracks[f.id := t]), w, f))
  {
    HeadGoesOn(s, w, hub, t, s.got[f.id], f);
    SameGot(s, f.id);
  }

  lemma AnsweredInFull(room: Room, since: int)
    requires RoomOk(room)
    ensures Ring(room.log) != []
    ensures var answer := WindowOf(Ring(room.log), room.frame, since);
      Fillable(answer) ==> Resumes(answer.snapshots, room.log, Some(since)) && Last(answer.snapshots) == room.frame
  {
    WindowRefinesLog(room, since);
  }

  lemma FramesFollow(s: Sys, w: Work, snaps: seq<Snapshot>, log: seq<Snapshot>)
    requires SysInv(s) && s.work == Some(w) && w.fills != [] && w.fills[0].Ask? && FillOk(w.fills[0], s.tracks)
    requires var f := w.fills[0];
      f.room in s.world && Resumes(snaps, log, Some(f.since)) && s.world[f.room].frame >= Last(snaps)
    ensures var f := w.fills[0];
      SysInv(FillOn(s.(tracks := s.tracks[f.id := s.tracks[f.id].(stage := Queued(snaps, log, 0))]), w,
                    Frames(f.id, f.room, snaps, 0)))
  {
    var f := w.fills[0];
    assert Received(s.tracks[f.id], s.got[f.id]);
    HeadGoesOnUnread(s, w, s.hub, s.tracks[f.id].(stage := Queued(snaps, log, 0)), Frames(f.id, f.room, snaps, 0));
  }

  lemma AskKeepsInv(s: Sys, w: Work, ok: bool)
    requires SysInv(s) && s.work == Some(w) && w.fills != [] && w.fills[0].Ask?
    requires FillOk(w.fills[0], s.tracks)
    requires ok && w.fills[0].room in s.world ==> Ring(s.world[w.fills[0].room].log) != []
    ensures SysInv(AskStep(s, w, ok))
  {
    var f := w.fills[0];
    if !ok || f.room !in s.world {
      DropHead(s, w, s.hub, Kept(w.report, f.id));
      assert s.(hub := s.hub) == s;
    } else {
      var room := s.world[f.room];
      var answer := WindowOf(Ring(room.log), room.frame, f.since);
      AnsweredInFull(room, f.since);
      HeadIsAlone(w.fills, s.tracks);
      if Fillable(answer) {
        FramesFollow(s, w, answer.snapshots, room.log);
      } else {
        ReplaceHead(s, w, Reset(f.id, f.room, ReasonFor(answer), false));
      }
    }
  }

  /** The back-fill at the head is over: its subscription moves on to `t` having received `received`. */
  lemma HeadMovesOn(s: Sys, w: Work, hub: Hub, t: Track, received: seq<Sent>, report: Report)
    requires SysInv(s) && s.work == Some(w) && w.fills != []
    requires hub.subs == s.hub.subs && hub.nextId == s.hub.nextId
    requires w.fills[0].id in s.tracks && !LiveStage(s.tracks[w.fills[0].id])
    requires Received(t, received) && Behind(t, s.world, s.seen)
    requires w.report.failed <= report.failed && w.report.filled.Keys <= report.filled.Keys
    requires forall k :: k in report.filled ==> k in w.report.filled || (k == w.fills[0].id && LiveStage(t))
    requires var id := w.fills[0].id;
      id in s.hub.subs ==> Linked(s.hub.subs[id], t, id, Some(w.(fills := w.fills[1..], report := report)))
    ensures var id := w.fills[0].id;
      SysInv(NextFill(s.(hub := hub, got := s.got[id := received], tracks := s.tracks[id := t]), w, report))
  {
    var id := w.fills[0].id;
    var w' := w.(fills := w.fills[1..], report := report);
    RestIgnoresHead(w, s.tracks, t);
    LinksCarryPast(s.hub.subs, s.tracks, w, w', id, t);
    HeadReceives(s.tracks, s.got, s.world, s.seen, id, t, received);
  }

  lemma HeadReceives(tracks: map<nat, Track>, got: map<nat, seq<Sent>>, world: map<string, Room>, seen: set<string>,
                     id: nat, t: Track, received: seq<Sent>)
    requires AllReceived(tracks, got) && AllBehind(tracks, world, seen) && id in tracks
    requires Received(t, received) && Behind(t, world, seen)
    ensures AllReceived(tracks[id := t], got[id := received]) && AllBehind(tracks[id := t], world, seen)
  {
  }

  lemma HeadMovesOnUnread(s: Sys, w: Work, hub: Hub, stage: Stage, report: Report)
    requires SysInv(s) && s.work == Some(w) && w.fills != [] && w.fills[0].id in s.tracks && w.fills[0].id in s.got
    requires hub.subs == s.hub.subs && hub.nextId == s.hub.nextId
    requires !LiveStage(s.tracks[w.fills[0].id])
    requires var t := s.tracks[w.fills[0].id].(stage := stage);
      && Received(t, s.got[w.fills[0].id]) && Behind(t, s.world, s.seen)
      && (forall k :: k in report.filled ==> k in w.report.filled || (k == w.fills[0].id && LiveStage(t)))
    requires w.report.failed <= report.failed && w.report.filled.Keys <= report.filled.Keys
    requires (stage.Cut? && w.fills[0].id in report.failed) || (LiveStage(s.tracks[w.fills[0].id].(stage := stage))
      && w.fills[0].id in report.filled)
    ensures var id := w.fills[0].id;
      SysInv(NextFill(s.(hub := hub, tracks := s.tracks[id := s.tracks[id].(stage := stage)]), w, report))
  {
    var id := w.fills[0].id;
    var t := s.tracks[id];
    if id in s.hub.subs {
      assert Linked(s.hub.subs[id], t, id, s.work);
    }
    HeadMovesOn(s, w, hub, t.(stage := stage), s.got[id], report);
    SameGot(s, id);
  }

  /** One more frame is written. */
  lemma FrameReceived(t: Track, got: seq<Sent>)
    requires t.stage.Queued? && Received(t, got) && t.stage.sent < |t.stage.w|
    ensures var stage := t.stage;
      Received(t.(stage := Queued(stage.w, stage.log, stage.sent + 1)), got + [StateSent(stage.w[stage.sent])])
  {
    var w, sent := t.stage.w, t.stage.sent;
    StatesMore(got, StateSent(w[sent]));
    assert w[..sent] + [w[sent]] == w[..sent + 1];
  }

  lemma FrameKeepsInv(s: Sys, w: Work, ok: bool)
    requires SysInv(s) && s.work == Some(w) && w.fills != [] && w.fills[0].Frames?
    requires FillOk(w.fills[0], s.tracks) && w.fills[0].id in s.got
    ensures SysInv(FrameStep(s, w, ok))
  {
    var f := w.fills[0];
    var t := s.tracks[f.id];
    if ok {
      assert Received(t, s.got[f.id]) && Behind(t, s.world, s.seen);
      FrameReceived(t, s.got[f.id]);
      HeadGoesOn(s, w, s.hub, t.(stage := Queued(f.snaps, t.stage.log, f.sent + 1)),
                 s.got[f.id] + [StateSent(f.snaps[f.sent])], NoteFrame(f.id, f.room, f.snaps, f.sent + 1));
    } else {
      LostKeepsInv(s, w);
    }
  }

  lemma LostKeepsInv(s: Sys, w: Work)
    requires SysInv(s) && s.work == Some(w) && w.fills != [] && w.fills[0].Frames?
    requires FillOk(w.fills[0], s.tracks) && w.fills[0].id in s.got
    ensures SysInv(FrameStep(s, w, false))
  {
    var f := w.fills[0];
    var t := s.tracks[f.id];
    assert Received(t, s.got[f.id]) && Behind(t, s.world, s.seen);
    HeadMovesOnUnread(s, w, s.hub, Cut(f.snaps, t.stage.log), Failed(w.report, f.id));
  }

  lemma NoteFrameKeepsInv(s: Sys, w: Work)
    requires SysInv(s) && s.work == Some(w) && w.fills != [] && w.fills[0].NoteFrame?
    requires FillOk(w.fills[0], s.tracks) && w.fills[0].id in s.got
    ensures SysInv(NoteFrameStep(s, w))
  {
    var f := w.fills[0];
    var t, state := s.tracks[f.id], f.snaps[f.sent - 1];
    var hub := s.hub.(pushed := SetPushed(s.hub.pushed, f.room, state, Terminal(state)));
    assert Received(t, s.got[f.id]) && Behind(t, s.world, s.seen);
    if f.sent < |f.snaps| {
      assert s.tracks[f.id := t] == s.tracks;
      HeadGoesOnUnread(s, w, hub, t, Frames(f.id, f.room, f.snaps, f.sent));
    } else {
      assert f.snaps[..f.sent] == f.snaps;
      HeadMovesOnUnread(s, w, hub, Filled(f.snaps, t.stage.log),
                        w.report.(filled := w.report.filled[f.id := |f.snaps|]));
    }
  }

  lemma FetchKeepsInv(s: Sys, w: Work, ok: bool)
    requires SysInv(s) && s.work == Some(w) && w.fills != [] && w.fills[0].Reset?
    requires FillOk(w.fills[0], s.tracks)
    ensures SysInv(FetchStep(s, w, ok))
  {
    var f := w.fills[0];
    if !ok || f.room !in s.world {
      DropHead(s, w, s.hub, Kept(w.report, f.id));
      assert s.(hub := s.hub) == s;
    } else {
      ReplaceHead(s, w, WriteReset(f.id, f.room, f.reason, f.counts, SnapshotOf(s.world[f.room])));
    }
  }

  lemma ResetKeepsInv(s: Sys, w: Work, ok: bool)
    requires SysInv(s) && s.work == Some(w) && w.fills != [] && w.fills[0].WriteReset?
    requires FillOk(w.fills[0], s.tracks) && w.fills[0].id in s.got
    ensures SysInv(ResetStep(s, w, ok))
  {
    var f := w.fills[0];
    var m := ResetSent(f.reason, f.s);
    OtherWrite(s.tracks[f.id], s.got[f.id], m);
    var s1 := if ok then s.(got := s.got[f.id := s.got[f.id] + [m]]) else s;
    assert SysInv(s1);
    ReplaceHead(s1, w, NoteReset(f.id, f.room, f.reason, f.counts, f.s, ok));
  }

  lemma NoteResetKeepsInv(s: Sys, w: Work)
    requires SysInv(s) && s.work == Some(w) && w.fills != [] && w.fills[0].NoteReset?
    requires FillOk(w.fills[0], s.tracks) && w.fills[0].id in s.got
    ensures SysInv(NoteResetStep(s, w))
  {
    var f := w.fills[0];
    var hub := s.hub.(pushed := SetPushed(s.hub.pushed, f.room, f.s, false));
    var report := w.report.(resets := w.report.resets[f.id := f.reason]);
    if !f.written {
      DropHead(s, w, hub, Failed(w.report, f.id));
    } else if f.counts {
      assert Received(s.tracks[f.id], s.got[f.id]);
      HeadMovesOnUnread(s, w, hub, Direct, report.(filled := report.filled[f.id := 0]));
    } else {
      DropHead(s, w, hub, Kept(report, f.id));
    }
  }

  // ------------------------------------------------------------------ live pushes

  /** The head of the list of rooms is done with, or goes on as another poll. */
  lemma PollsMoveOn(s: Sys, w: Work, polls: seq<Poll>, report: Report)
    requires SysInv(s) && s.work == Some(w) && w.polls != []
    requires forall p :: p in polls ==> PollOk(p, s.tracks)
    requires report.filled == w.report.filled && w.report.failed <= report.failed
    ensures SysInv(s.(work := Some(w.(polls := polls, report := report))))
  {
    LinksCarry(s.hub.subs, s.tracks, w, w.(polls := polls, report := report));
  }

  lemma RestOfPolls(polls: seq<Poll>, tracks: map<nat, Track>, p: Poll)
    requires polls != [] && (forall q :: q in polls ==> PollOk(q, tracks)) && PollOk(p, tracks)
    ensures forall q :: q in polls[1..] ==> PollOk(q, tracks)
    ensures forall q :: q in [p] + polls[1..] ==> PollOk(q, tracks)
  {
  }

  lemma QueryKeepsInv(s: Sys, w: Work, ok: bool)
    requires SysInv(s) && s.work == Some(w) && w.polls != [] && w.polls[0].Query? && PollOk(w.polls[0], s.tracks)
    ensures SysInv(QueryStep(s, w, ok))
  {
    var p := w.polls[0];
    if !ok || p.room !in s.world {
      RestOfPolls(w.polls, s.tracks, p);
      PollsMoveOn(s, w, w.polls[1..], w.report);
    } else {
      var c := Compare(p.room, SnapshotOf(s.world[p.room]), p.ids);
      QueriedNow(p, s.tracks, s.world, s.seen);
      RestOfPolls(w.polls, s.tracks, c);
      PollsMoveOn(s, w, [c] + w.polls[1..], w.report);
    }
  }

  lemma QueriedNow(p: Poll, tracks: map<nat, Track>, world: map<string, Room>, seen: set<string>)
    requires PollOk(p, tracks) && AllBehind(tracks, world, seen) && p.room in world
    ensures PollOk(Compare(p.room, SnapshotOf(world[p.room]), p.ids), tracks)
  {
    forall id | id in p.ids ensures MayPush(tracks[id], world[p.room].frame) {
      assert Behind(tracks[id], world, seen);
    }
  }

  lemma CompareKeepsInv(s: Sys, w: Work)
    requires SysInv(s) && s.work == Some(w) && w.polls != [] && w.polls[0].Compare? && PollOk(w.polls[0], s.tracks)
    ensures SysInv(CompareStep(s, w))
  {
    var p := w.polls[0];
    var c := Push(p.room, p.s, p.ids);
    RestOfPolls(w.polls, s.tracks, c);
    PollsMoveOn(s, w, w.polls[1..], w.report);
    PollsMoveOn(s, w, [c] + w.polls[1..], w.report);
  }

  lemma LaterPush(p: Poll, tracks: map<nat, Track>)
    requires p.Push? && PollOk(p, tracks) && p.ids[1..] != []
    ensures PollOk(Push(p.room, p.s, p.ids[1..]), tracks)
  {
    assert forall id :: id in p.ids[1..] ==> id in p.ids;
  }

  lemma PushKeepsInv(s: Sys, w: Work, ok: bool)
    requires SysInv(s) && s.work == Some(w) && PollReady(s, w) && w.polls[0].Push? && PollOk(w.polls[0], s.tracks)
    ensures SysInv(PushStep(s, w, ok))
  {
    var p := w.polls[0];
    var id := p.ids[0];
    assert id in p.ids;
    LiveWrite(s.tracks[id], s.got[id], p.s);
    var s1 := s.(got := if ok then s.got[id := s.got[id] + [StateSent(p.s)]] else s.got);
    var later: seq<Poll> := if p.ids[1..] == [] then [] else [Push(p.room, p.s, p.ids[1..])];
    if later != [] {
      LaterPush(p, s.tracks);
    }
    RestOfPolls(w.polls, s.tracks, if later == [] then p else later[0]);
    assert SysInv(s1);
    PollsMoveOn(s1, w, later + w.polls[1..], if ok && !Terminal(p.s) then w.report else Failed(w.report, id));
  }

  lemma PollKeepsInv(s: Sys, ok: bool)
    requires SysInv(s) && Enabled(s, PollEv(ok))
    ensures SysInv(Step(s, PollEv(ok)))
  {
    PollFacts(s);
    match s.work.value.polls[0]
    case Query(_, _) => QueryKeepsInv(s, s.work.value, ok);
    case Compare(_, _, _) => CompareKeepsInv(s, s.work.value);
    case Push(_, _, _) => PushKeepsInv(s, s.work.value, ok);
  }

  // ------------------------------------------------------------------ first events, heartbeats, commit

  lemma WroteKeepsInv(s: Sys, w: Work, rest: Work, id: nat, m: Sent, ok: bool)
    requires SysInv(s) && s.work == Some(w) && id in s.tracks && id in s.got && !m.StateSent? && !m.ResetSent?
    requires rest == w.(readies := rest.readies, pings := rest.pings)
    requires forall k :: k in rest.readies ==> k in w.readies
    requires forall k :: k in rest.pings ==> k in w.pings
    ensures SysInv(Wrote(s, rest, id, m, ok))
  {
    OtherWrite(s.tracks[id], s.got[id], m);
    LinksCarry(s.hub.subs, s.tracks, w, if ok then rest else rest.(report := Failed(rest.report, id)));
  }

  lemma CommitLinks(subs: map<nat, Sub>, tracks: map<nat, Track>, w: Work)
    requires AllLinked(subs, tracks, Some(w)) && w.fills == [] && WorkOk(w, tracks)
    ensures AllLinked(AllAfterTick(subs, w.report, w.now), tracks, None)
  {
    var after := AllAfterTick(subs, w.report, w.now);
    forall id | id in after ensures Linked(after[id], tracks[id], id, None) {
      assert Linked(subs[id], tracks[id], id, Some(w));
    }
  }

  // ------------------------------------------------------------------ every step

  lemma StepKeepsInv(s: Sys, ev: HubEvent)
    requires SysInv(s) && Enabled(s, ev)
    ensures SysInv(Step(s, ev))
  {
    match ev
    case SubscribeEv(player, room, from, malformed) => SubscribeKeepsInv(s, player, room, from, malformed);
    case UnsubscribeEv(id) =>
    case RoomEv(room, e) => RoomEvKeepsInv(s, room, e);
    case RoomBornEv(room, r) => RoomBornKeepsBehind(s.tracks, s.world, s.seen, room, r);
    case RoomGoneEv(room) => RoomGoneKeepsBehind(s.tracks, s.world, s.seen, room);
    case BeginEv(now, plan, order) => BeginKeepsInv(s, now, plan, order);
    case FillEv(ok) => FillKeepsInv(s, ok);
    case PollEv(ok) => PollKeepsInv(s, ok);
    case ReadyEv(ok) =>
      var w := s.work.value;
      assert w.readies[0] in w.readies;
      WroteKeepsInv(s, w, w.(readies := w.readies[1..]), w.readies[0],
                    ReadySent(s.tracks[w.readies[0]].player, s.tracks[w.readies[0]].room), ok);
    case PingEv(ok) =>
      var w := s.work.value;
      assert w.pings[0] in w.pings;
      WroteKeepsInv(s, w, w.(pings := w.pings[1..]), w.pings[0], PingSent, ok);
    case CommitEv => CommitLinks(s.hub.subs, s.tracks, s.work.value);
  }

  lemma FillKeepsInv(s: Sys, ok: bool)
    requires SysInv(s) && Enabled(s, FillEv(ok))
    ensures SysInv(Step(s, FillEv(ok)))
  {
    var w := s.work.value;
    FillFacts(s);
    match w.fills[0]
    case Ask(_, _, _) => AskKeepsInv(s, w, ok);
    case Frames(_, _, _, _) => FrameKeepsInv(s, w, ok);
    case NoteFrame(_, _, _, _) => NoteFrameKeepsInv(s, w);
    case Reset(_, _, _, _) => FetchKeepsInv(s, w, ok);
    case WriteReset(_, _, _, _, _) => ResetKeepsInv(s, w, ok);
    case NoteReset(_, _, _, _, _, _) => NoteResetKeepsInv(s, w);
  }
}
