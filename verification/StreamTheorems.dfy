/** What a client that resumes receives over any run, and when a back-fill ends. */
module StreamTheorems {
  import opened Wrappers
  import opened Seqs
  import opened RoomCore
  import opened RoomHistory
  import opened StreamText
  import opened StreamCore
  import opened StreamProtocol
  import opened StreamResume
  import Text = Sse

  // ------------------------------------------------------------------ runs

  ghost predicate Start(s: Sys) {
    && s.hub.subs == map[] && s.work.None? && s.got == map[] && s.tracks == map[] && s.first == map[]
    && s.world.Keys <= s.seen && forall room :: room in s.world ==> RoomOk(s.world[room])
  }

  lemma StartKeepsInv(s: Sys)
    requires Start(s)
    ensures SysInv(s)
  {
  }

  ghost predicate Legal(s: Sys, evs: seq<HubEvent>)
    requires SysInv(s)
    decreases |evs|
  {
    evs == [] || (Enabled(s, evs[0]) && (StepKeepsInv(s, evs[0]); Legal(Step(s, evs[0]), evs[1..])))
  }

  ghost function Run(s: Sys, evs: seq<HubEvent>): Sys
    requires SysInv(s) && Legal(s, evs)
    decreases |evs|
  {
    if evs == [] then s else (StepKeepsInv(s, evs[0]); Run(Step(s, evs[0]), evs[1..]))
  }

  lemma {:induction false} RunKeepsInv(s: Sys, evs: seq<HubEvent>)
    requires SysInv(s) && Legal(s, evs)
    ensures SysInv(Run(s, evs))
    decreases |evs|
  {
    if evs != [] {
      StepKeepsInv(s, evs[0]);
      RunKeepsInv(Step(s, evs[0]), evs[1..]);
    }
  }

  ghost predicate Goes(s: Sys, ev: HubEvent, q: Sys) {
    SysInv(s) && Enabled(s, ev) && Step(s, ev) == q
  }

  ghost predicate Leads(s: Sys, evs: seq<HubEvent>, q: Sys) {
    SysInv(s) && Legal(s, evs) && Run(s, evs) == q
  }

  lemma Onward(s: Sys, ev: HubEvent, q: Sys)
    requires Goes(s, ev, q)
    ensures SysInv(q) && Leads(s, [ev], q)
  {
    StepKeepsInv(s, ev);
    assert [ev][1..] == [];
  }

  lemma AfterStep(s: Sys, ev: HubEvent, q: Sys, rest: seq<HubEvent>, last: Sys)
    requires Goes(s, ev, q) && Leads(q, rest, last)
    ensures Leads(s, [ev] + rest, last)
  {
    assert ([ev] + rest)[1..] == rest;
  }

  /** The work of a tick that begins at `now` with these subscriptions. */
  ghost predicate BeginsWith(subs: map<nat, Sub>, now: int, plan: Plan, order: seq<string>, w: Work) {
    && IsPlan(subs, now, plan) && NoDup(order) && Elems(order) == plan.polls.Keys
    && (forall id :: id in plan.fills ==> id in subs && WantsBackfill(subs[id]))
    && (forall room :: room in order ==> room in plan.polls)
    && w == Work(now, FillsFor(subs, plan.fills), PollsFor(plan.polls, order), plan.readies, plan.pings,
                 Report(map[], {}, map[], Elems(plan.readies), Elems(plan.pings), {}))
  }

  lemma BeginGoes(s: Sys, now: int, plan: Plan, order: seq<string>, w: Work, q: Sys)
    requires SysInv(s) && s.work.None? && BeginsWith(AllClocked(s.hub, now).subs, now, plan, order, w)
    requires q == s.(hub := AllClocked(s.hub, now), work := Some(w))
    ensures Goes(s, BeginEv(now, plan, order), q)
  {
  }

  /** A step of the back-fill at the head, whose call or write succeeds. */
  lemma FillGoes(s: Sys, q: Sys)
    requires SysInv(s) && s.work.Some? && s.work.value.fills != []
    requires FillReady(s, s.work.value) && q == FillStep(s, s.work.value, true)
    ensures Goes(s, FillEv(true), q)
  {
  }

  /** A first event that reaches its connection. */
  lemma ReadyGoes(s: Sys, q: Sys)
    requires SysInv(s) && s.work.Some? && s.work.value.fills == [] && s.work.value.polls == []
    requires var w := s.work.value;
      && w.readies != [] && w.readies[0] in s.tracks && w.readies[0] in s.got
      && var t := s.tracks[w.readies[0]];
         q == Wrote(s, w.(readies := w.readies[1..]), w.readies[0], ReadySent(t.player, t.room), true)
    ensures Goes(s, ReadyEv(true), q)
  {
  }

  lemma {:induction false} RunsJoin(s: Sys, evs: seq<HubEvent>, q: Sys, more: seq<HubEvent>, last: Sys)
    requires Leads(s, evs, q) && Leads(q, more, last)
    ensures Leads(s, evs + more, last)
    decreases |evs|
  {
    if evs == [] {
      assert evs + more == more;
    } else {
      var mid := Step(s, evs[0]);
      StepKeepsInv(s, evs[0]);
      RunsJoin(mid, evs[1..], q, more, last);
      AfterStep(s, evs[0], mid, evs[1..] + more, last);
      assert [evs[0]] + (evs[1..] + more) == evs + more;
    }
  }

  lemma TwoSteps(s: Sys, a: HubEvent, s1: Sys, b: HubEvent, s2: Sys)
    requires Goes(s, a, s1) && Goes(s1, b, s2)
    ensures Leads(s, [a] + [b], s2)
  {
    Onward(s, a, s1);
    Onward(s1, b, s2);
    RunsJoin(s, [a], s1, [b], s2);
  }

  lemma AndOne(s: Sys, a: HubEvent, b: HubEvent, s2: Sys, c: HubEvent, s3: Sys)
    requires Leads(s, [a] + [b], s2) && Leads(s2, [c], s3)
    ensures Leads(s, [a, b, c], s3)
  {
    RunsJoin(s, [a] + [b], s2, [c], s3);
    assert [a] + [b] + [c] == [a, b, c];
  }

  lemma ThreeSteps(s: Sys, a: HubEvent, s1: Sys, b: HubEvent, s2: Sys, c: HubEvent, s3: Sys)
    requires Goes(s, a, s1) && Goes(s1, b, s2) && Goes(s2, c, s3)
    ensures Leads(s, [a, b, c], s3)
  {
    TwoSteps(s, a, s1, b, s2);
    Onward(s2, c, s3);
    AndOne(s, a, b, s2, c, s3);
  }

  lemma SixEvents(s: Sys, a: HubEvent, b: HubEvent, c: HubEvent, mid: Sys, d: HubEvent, e: HubEvent, f: HubEvent,
                  last: Sys)
    requires Leads(s, [a, b, c], mid) && Leads(mid, [d, e, f], last)
    ensures Leads(s, [a, b, c, d, e, f], last)
  {
    RunsJoin(s, [a, b, c], mid, [d, e, f], last);
    assert [a, b, c] + [d, e, f] == [a, b, c, d, e, f];
  }

  // ------------------------------------------------------------------ resuming

  /** A connection resumed after frame `since`, given what its room had recorded when asked: the states
      written to it are frames since + 1, since + 2, ... up to the newest, each once and as last
      recorded, and after those nothing below the newest; no reset follows a state. */
  ghost predicate Resumed(got: seq<Sent>, log: seq<Snapshot>, since: int) {
    && ResetsFirst(got)
    && log != [] && Newest(log) > since
    && var states := States(got);
       var f := Newest(log);
       forall k :: 0 <= k < |states| ==>
         if since + 1 + k <= f then states[k].frame == since + 1 + k && LastWith(log, since + 1 + k) == Some(states[k])
         else states[k].frame >= f
  }

  /** Over any run: a client that resumes has received nothing but resets and heartbeats, or has been
      resumed without gap or duplicate; and once its back-fill is no longer pending it has everything. */
  lemma ResumeWithoutGapOrDuplicate(start: Sys, evs: seq<HubEvent>, id: nat)
    requires Start(start) && SysInv(start) && Legal(start, evs)
    requires id in Run(start, evs).tracks && Run(start, evs).tracks[id].since.Some?
    ensures var s := Run(start, evs);
      var t := s.tracks[id];
      && id in s.got
      && (t.stage.Waiting? ==> States(s.got[id]) == [])
      && (!t.stage.Waiting? ==> !t.stage.Direct? && Resumed(s.got[id], t.stage.log, t.since.value))
      && (id in s.hub.subs && !WantsBackfill(s.hub.subs[id]) ==>
            t.stage.Filled? && |States(s.got[id])| >= Newest(t.stage.log) - t.since.value > 0)
  {
    RunKeepsInv(start, evs);
    var s := Run(start, evs);
    assert Received(s.tracks[id], s.got[id]);
    if !s.tracks[id].stage.Waiting? {
      ReceivedIsResumed(s.tracks[id], s.got[id]);
    }
    if id in s.hub.subs {
      assert Linked(s.hub.subs[id], s.tracks[id], id, s.work);
    }
  }

  lemma ReceivedIsResumed(t: Track, got: seq<Sent>)
    requires Received(t, got) && t.since.Some? && !t.stage.Waiting?
    ensures !t.stage.Direct? && Resumed(got, t.stage.log, t.since.value)
    ensures t.stage.Filled? ==> |States(got)| >= Newest(t.stage.log) - t.since.value > 0
  {
    var w, log, since, states := t.stage.w, t.stage.log, t.since.value, States(got);
    assert Resumes(w, log, t.since);
    forall k | 0 <= k < |states|
      ensures if since + 1 + k <= Newest(log)
              then states[k].frame == since + 1 + k && LastWith(log, since + 1 + k) == Some(states[k])
              else states[k].frame >= Newest(log)
    {
      if k < |w| {
        assert states[k] == w[k];
      }
    }
  }

  // ------------------------------------------------------------------ through the text to the client

  /** The messages written at the given moments, as text events. */
  function Messages(got: seq<Sent>, times: seq<int>): seq<Text.Message>
    requires |got| == |times|
  {
    if got == [] then [] else [MessageOf(got[0], times[0])] + Messages(got[1..], times[1..])
  }

  lemma {:induction false} MessagesPrintable(got: seq<Sent>, times: seq<int>)
    requires |got| == |times|
    ensures forall m :: m in Messages(got, times) ==> Text.Printable(m)
  {
    if got != [] {
      EveryMessageIsPrintable(got[0], times[0]);
      MessagesPrintable(got[1..], times[1..]);
    }
  }

  /** Whatever the hub wrote, however the network cut it: the browser's reader delivers those events, in
      order and once each, and keeps nothing back. */
  lemma ClientReadsWhatWasWritten(got: seq<Sent>, times: seq<int>, chunks: seq<string>)
    requires |got| == |times|
    requires Text.Concat(chunks) == Text.PrintAll(Messages(got, times))
    ensures Text.Drain(Text.NormalizedAll(chunks)) == (Text.ReadingAll(Messages(got, times)), "")
  {
    MessagesPrintable(got, times);
    Text.PrinterAndReaderUndoEachOther(Messages(got, times), chunks);
  }

  // ------------------------------------------------------------------ when a back-fill ends

  lemma EndsExactlyWithFramesOrMalformed(r: Room, since: int, state: Answer<Snapshot>)
    requires RoomOk(r)
    ensures Ring(r.log) != []
    ensures var range := Answered(WindowOf(Ring(r.log), r.frame, since));
      && (Ends(false, Some(since), range, state) <==> Ring(r.log)[0].frame - 1 <= since < r.frame)
      && (!Ends(false, Some(since), range, state) && state.Answered? ==>
            |FillSends(false, Some(since), range, state)| == 1
            && FillSends(false, Some(since), range, state)[0].ResetSent?)
  {
    WindowRefinesLog(r, since);
  }

  /** What a back-fill has to say about a room: after a malformed id that it was malformed; else the missing
      frames in order, or whether the client is ahead of the room, too far behind, or has all there is. */
  lemma ResetSaysWhy(r: Room, since: int, state: Snapshot)
    requires RoomOk(r)
    ensures Ring(r.log) != []
    ensures var oldest := Ring(r.log)[0].frame;
      var sends := FillSends(false, Some(since), Answered(WindowOf(Ring(r.log), r.frame, since)), Answered(state));
      && (since > r.frame ==> sends == [ResetSent(IdAhead, state)])
      && (since < oldest - 1 ==> sends == [ResetSent(IdOutOfWindow, state)])
      && (since == r.frame ==> sends == [ResetSent(IdCurrent, state)])
      && (oldest - 1 <= since < r.frame ==>
            |sends| == r.frame - since && forall k :: 0 <= k < |sends| ==>
              sends[k].StateSent? && sends[k].s.frame == since + 1 + k)
    ensures forall from, range :: FillSends(true, from, range, Answered(state)) == [ResetSent(IdMalformed, state)]
  {
    WindowRefinesLog(r, since);
    RingSteps(r.log);
    RingOldest(Ring(r.log));
  }

  /** One subscription, resuming from the very frame its room is at, and no heartbeat due. */
  ghost predicate UpToDate(s: Sys, id: nat, now: int) {
    && SysInv(s) && s.work.None?
    && s.hub.subs.Keys == {id}
    && var sub := s.hub.subs[id];
       && WantsBackfill(sub) && !sub.malformed
       && sub.room in s.world && sub.from == Some(s.world[sub.room].frame)
       && (sub.created == 0 || now - sub.beat < HEARTBEAT_MS)
  }

  /** The two locked sections, the query, the state call, the one write of its tick, and the remembering of it. */
  function OneTick(id: nat, now: int): seq<HubEvent> {
    [BeginEv(now, Plan([id], map[], [], []), []), FillEv(true), FillEv(true), FillEv(true), FillEv(true), CommitEv]
  }

  /** The states between the steps of `OneTick`: the back-fill has come to `f`. */
  function During(s: Sys, now: int, f: Fill): Sys {
    s.(hub := AllClocked(s.hub, now), work := Some(Work(now, [f], [], [], [], Report(map[], {}, map[], {}, {}, {}))))
  }

  function Asking(s: Sys, id: nat, now: int): Sys
    requires id in s.hub.subs && s.hub.subs[id].from.Some?
  {
    During(s, now, Ask(id, s.hub.subs[id].room, s.hub.subs[id].from.value))
  }

  function Resetting(s: Sys, id: nat, now: int): Sys
    requires id in s.hub.subs
  {
    During(s, now, Reset(id, s.hub.subs[id].room, IdCurrent, false))
  }

  function Writing(s: Sys, id: nat, now: int): Sys
    requires id in s.hub.subs && s.hub.subs[id].room in s.world
  {
    var room := s.hub.subs[id].room;
    During(s, now, WriteReset(id, room, IdCurrent, false, SnapshotOf(s.world[room])))
  }

  function Noting(s: Sys, id: nat, now: int): Sys
    requires id in s.hub.subs && id in s.got && s.hub.subs[id].room in s.world
  {
    var room := s.hub.subs[id].room;
    var state := SnapshotOf(s.world[room]);
    During(s.(got := s.got[id := s.got[id] + [ResetSent(IdCurrent, state)]]), now,
           NoteReset(id, room, IdCurrent, false, state, true))
  }

  function AfterReset(s: Sys, id: nat, now: int): Sys
    requires id in s.hub.subs && id in s.got && s.hub.subs[id].room in s.world
  {
    var room := s.hub.subs[id].room;
    var state := SnapshotOf(s.world[room]);
    s.(hub := AllClocked(s.hub, now).(pushed := SetPushed(s.hub.pushed, room, state, false)),
       got := s.got[id := s.got[id] + [ResetSent(IdCurrent, state)]])
  }

  function Reported(s: Sys, id: nat, now: int): Sys
    requires id in s.hub.subs && id in s.got && s.hub.subs[id].room in s.world
  {
    AfterReset(s, id, now).(work := Some(Work(now, [], [], [], [],
                                              Report(map[], {id}, map[id := IdCurrent], {}, {}, {}))))
  }

  function ResetSub(sub: Sub, now: int): Sub {
    Clocked(sub, now).(beat := now, reset := Some(IdCurrent))
  }

  /** The system after `OneTick`. */
  function AfterOneTick(s: Sys, id: nat, now: int): Sys
    requires id in s.hub.subs && id in s.got && s.hub.subs[id].room in s.world
  {
    var q := AfterReset(s, id, now);
    q.(hub := q.hub.(subs := map[id := ResetSub(s.hub.subs[id], now)]))
  }

  lemma TickBegins(s: Sys, id: nat, now: int)
    requires UpToDate(s, id, now)
    ensures Goes(s, OneTick(id, now)[0], Asking(s, id, now))
  {
    var w := Asking(s, id, now).work.value;
    OnlyFill(AllClocked(s.hub, now).subs, id, now, w);
    BeginGoes(s, now, Plan([id], map[], [], []), [], w, Asking(s, id, now));
  }

  lemma OnlyFill(subs: map<nat, Sub>, id: nat, now: int, w: Work)
    requires subs.Keys == {id} && WantsBackfill(subs[id]) && !PingDue(subs[id], now)
    requires w == Work(now, [FillFor(subs, id)], [], [], [], Report(map[], {}, map[], {}, {}, {}))
    ensures BeginsWith(subs, now, Plan([id], map[], [], []), [], w)
  {
    assert Elems<string>([]) == {} && Elems<nat>([]) == {};
  }

  lemma NothingNewer(s: Sys, id: nat, now: int)
    requires UpToDate(s, id, now) && id in s.tracks
    ensures var q := Asking(s, id, now);
      && Ring(s.world[s.hub.subs[id].room].log) != []
      && AskStep(q, q.work.value, true) == Resetting(s, id, now)
  {
    var room := s.world[s.hub.subs[id].room];
    WindowRefinesLog(room, room.frame);
    RingSteps(room.log);
    RingOldest(Ring(room.log));
    var w := Asking(s, id, now).work.value;
    var f := Reset(id, s.hub.subs[id].room, IdCurrent, false);
    assert [f] + w.fills[1..] == [f];
  }

  lemma TickAsks(s: Sys, id: nat, now: int)
    requires UpToDate(s, id, now) && SysInv(Asking(s, id, now))
    ensures Goes(Asking(s, id, now), FillEv(true), Resetting(s, id, now))
  {
    var q := Asking(s, id, now);
    FillFacts(q);
    NothingNewer(s, id, now);
    FillGoes(q, Resetting(s, id, now));
  }

  lemma TickFetches(s: Sys, id: nat, now: int)
    requires UpToDate(s, id, now) && SysInv(Resetting(s, id, now))
    ensures Goes(Resetting(s, id, now), FillEv(true), Writing(s, id, now))
  {
    var q, q' := Resetting(s, id, now), Writing(s, id, now);
    FillFacts(q);
    assert q'.work.value.fills == [q'.work.value.fills[0]] + q.work.value.fills[1..];
    FillGoes(q, q');
  }

  lemma TickWrites(s: Sys, id: nat, now: int)
    requires UpToDate(s, id, now) && SysInv(Writing(s, id, now))
    ensures id in s.got && Goes(Writing(s, id, now), FillEv(true), Noting(s, id, now))
  {
    var q := Writing(s, id, now);
    FillFacts(q);
    var q' := Noting(s, id, now);
    assert q'.work.value.fills == [q'.work.value.fills[0]] + q.work.value.fills[1..];
    FillGoes(q, q');
  }

  lemma ResetReported(s: Sys, id: nat, now: int)
    requires UpToDate(s, id, now) && id in s.tracks && id in s.got
    ensures var q := Noting(s, id, now); NoteResetStep(q, q.work.value) == Reported(s, id, now)
  {
    var w := Noting(s, id, now).work.value;
    assert w.fills[1..] == [];
    assert {} + {id} == {id};
    assert map[][id := IdCurrent] == map[id := IdCurrent];
  }

  lemma TickNotes(s: Sys, id: nat, now: int)
    requires UpToDate(s, id, now) && id in s.got && SysInv(Noting(s, id, now))
    ensures Goes(Noting(s, id, now), FillEv(true), Reported(s, id, now))
  {
    FillFacts(Noting(s, id, now));
    ResetReported(s, id, now);
    FillGoes(Noting(s, id, now), Reported(s, id, now));
  }

  lemma CommitOne(subs: map<nat, Sub>, id: nat, now: int)
    requires subs.Keys == {id}
    ensures AllAfterTick(AllClocked(Hub(subs, map[], 0), now).subs,
                         Report(map[], {id}, map[id := IdCurrent], {}, {}, {}), now)
      == map[id := ResetSub(subs[id], now)]
  {
  }

  lemma TickCommits(s: Sys, id: nat, now: int)
    requires UpToDate(s, id, now) && id in s.got && SysInv(Reported(s, id, now))
    ensures Goes(Reported(s, id, now), CommitEv, AfterOneTick(s, id, now))
  {
    CommitOne(s.hub.subs, id, now);
  }

  lemma HalfTick(s: Sys, id: nat, now: int)
    requires UpToDate(s, id, now)
    ensures Leads(s, [OneTick(id, now)[0], FillEv(true), FillEv(true)], Writing(s, id, now))
    ensures SysInv(Writing(s, id, now))
  {
    var begin := OneTick(id, now)[0];
    TickBegins(s, id, now);
    Onward(s, begin, Asking(s, id, now));
    TickAsks(s, id, now);
    Onward(Asking(s, id, now), FillEv(true), Resetting(s, id, now));
    TickFetches(s, id, now);
    Onward(Resetting(s, id, now), FillEv(true), Writing(s, id, now));
    ThreeSteps(s, begin, Asking(s, id, now), FillEv(true), Resetting(s, id, now), FillEv(true), Writing(s, id, now));
  }

  lemma OtherHalf(s: Sys, id: nat, now: int)
    requires UpToDate(s, id, now) && SysInv(Writing(s, id, now))
    ensures id in s.got && Leads(Writing(s, id, now), [FillEv(true), FillEv(true), CommitEv], AfterOneTick(s, id, now))
  {
    TickWrites(s, id, now);
    Onward(Writing(s, id, now), FillEv(true), Noting(s, id, now));
    TickNotes(s, id, now);
    Onward(Noting(s, id, now), FillEv(true), Reported(s, id, now));
    TickCommits(s, id, now);
    ThreeSteps(Writing(s, id, now), FillEv(true), Noting(s, id, now), FillEv(true), Reported(s, id, now),
               CommitEv, AfterOneTick(s, id, now));
  }

  lemma OneTickRuns(s: Sys, id: nat, now: int)
    requires UpToDate(s, id, now)
    ensures id in s.got && Leads(s, OneTick(id, now), AfterOneTick(s, id, now))
  {
    HalfTick(s, id, now);
    OtherHalf(s, id, now);
    SixEvents(s, OneTick(id, now)[0], FillEv(true), FillEv(true), Writing(s, id, now), FillEv(true), FillEv(true),
              CommitEv, AfterOneTick(s, id, now));
  }

  /** A client that reconnects without having missed anything is sent a reset, and is left as it was: the
      next tick sends the next one, and no heartbeat ever falls due. */
  lemma UpToDateClientIsResetAgain(s: Sys, id: nat, now: int)
    requires UpToDate(s, id, now)
    ensures id in s.got && Leads(s, OneTick(id, now), AfterOneTick(s, id, now))
    ensures var q := AfterOneTick(s, id, now);
      && q.got == s.got[id := s.got[id] + [ResetSent(IdCurrent, SnapshotOf(s.world[s.hub.subs[id].room]))]]
      && q.world == s.world
      && UpToDate(q, id, now + 100)
  {
    OneTickRuns(s, id, now);
    RunKeepsInv(s, OneTick(id, now));
  }

  /** The first subscriber after a start, resuming from the frame its room is at. */
  function Newcomer(s: Sys, player: string, room: string): Sys
    requires room in s.world
  {
    var frame := s.world[room].frame;
    s.(hub := Subscribed(s.hub, player, room, Some(frame), false),
       got := s.got[s.hub.nextId := []],
       tracks := s.tracks[s.hub.nextId := Track(player, room, Some(frame), Stage.Waiting)])
  }

  lemma NewcomerComes(s: Sys, player: string, room: string, now: int)
    requires Start(s) && SysInv(s) && room in s.world
    ensures Goes(s, SubscribeEv(player, room, Some(s.world[room].frame), false), Newcomer(s, player, room))
    ensures UpToDate(Newcomer(s, player, room), s.hub.nextId, now)
    ensures Newcomer(s, player, room).got == map[s.hub.nextId := []]
  {
    Onward(s, SubscribeEv(player, room, Some(s.world[room].frame), false), Newcomer(s, player, room));
  }

  lemma TickAdds(s: Sys, id: nat, now: int, before: seq<Sent>)
    requires id in s.hub.subs && s.hub.subs[id].room in s.world && s.got == map[id := before]
    ensures var q := AfterOneTick(s, id, now);
      && q.got == map[id := before + [ResetSent(IdCurrent, SnapshotOf(s.world[s.hub.subs[id].room]))]]
      && q.world == s.world && id in q.hub.subs && q.hub.subs[id].room == s.hub.subs[id].room
  {
  }

  lemma TwoTicks(s: Sys, ev: HubEvent, q: Sys, evs: seq<HubEvent>, q2: Sys, more: seq<HubEvent>, last: Sys)
    requires Goes(s, ev, q) && Leads(q, evs, q2) && Leads(q2, more, last)
    ensures Leads(s, [ev] + (evs + more), last)
  {
    RunsJoin(q, evs, q2, more, last);
    AfterStep(s, ev, q, evs + more, last);
  }

  lemma TwoTicksAdd(q: Sys, id: nat, now: int)
    requires id in q.hub.subs && q.hub.subs[id].room in q.world && q.got == map[id := []]
    ensures var reset := ResetSent(IdCurrent, SnapshotOf(q.world[q.hub.subs[id].room]));
      var q2 := AfterOneTick(q, id, now);
      && id in q2.hub.subs && id in q2.got && q2.hub.subs[id].room in q2.world
      && AfterOneTick(q2, id, now + 100).got == map[id := [reset, reset]]
  {
    var reset := ResetSent(IdCurrent, SnapshotOf(q.world[q.hub.subs[id].room]));
    TickAdds(q, id, now, []);
    assert [] + [reset] == [reset] && [reset] + [reset] == [reset, reset];
    TickAdds(AfterOneTick(q, id, now), id, now + 100, [reset]);
  }

  /** From any start, for any room: such a subscriber gets a reset in the first tick and again in the second. */
  lemma NewcomerIsResetTwice(s: Sys, player: string, room: string, now: int)
    requires Start(s) && SysInv(s) && room in s.world
    ensures var id := s.hub.nextId;
      var reset := ResetSent(IdCurrent, SnapshotOf(s.world[room]));
      var subscribe := SubscribeEv(player, room, Some(s.world[room].frame), false);
      && UpToDate(Newcomer(s, player, room), id, now)
      && exists last :: Leads(s, [subscribe] + (OneTick(id, now) + OneTick(id, now + 100)), last)
                        && last.got == map[id := [reset, reset]]
  {
    var id, q := s.hub.nextId, Newcomer(s, player, room);
    NewcomerComes(s, player, room, now);
    UpToDateClientIsResetAgain(q, id, now);
    TwoTicksAdd(q, id, now);
    var q2 := AfterOneTick(q, id, now);
    UpToDateClientIsResetAgain(q2, id, now + 100);
    TwoTicks(s, SubscribeEv(player, room, Some(s.world[room].frame), false), q, OneTick(id, now), q2,
             OneTick(id, now + 100), AfterOneTick(q2, id, now + 100));
  }
}
