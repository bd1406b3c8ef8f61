/** The first message of a subscription that has nothing to back-fill: when `session.ready` is it. */
module StreamFirst {
  import opened Wrappers
  import opened Seqs
  import opened RoomCore
  import opened RoomHistory
  import opened StreamText
  import opened StreamCore
  import opened StreamProtocol
  import opened StreamResume
  import opened StreamTheorems

  // ------------------------------------------------------------------ the pushes a tick has left

  function Awaiting(polls: seq<Poll>): set<nat> {
    if polls == [] then {} else Elems(polls[0].ids) + Awaiting(polls[1..])
  }

  ghost predicate DisjointPolls(polls: seq<Poll>) {
    polls == [] ||
    (NoDup(polls[0].ids) && Elems(polls[0].ids) !! Awaiting(polls[1..]) && DisjointPolls(polls[1..]))
  }

  lemma {:induction false} PlannedPolls(subs: map<nat, Sub>, polls: map<string, seq<nat>>, order: seq<string>)
    requires PollsOk(subs, polls) && NoDup(order) && forall room :: room in order ==> room in polls
    ensures forall id :: id in Awaiting(PollsFor(polls, order)) <==> IsLive(subs, id) && subs[id].room in order
    ensures DisjointPolls(PollsFor(polls, order))
  {
    if order != [] {
      var rest := order[1..];
      PlannedPolls(subs, polls, rest);
      assert PollsFor(polls, order)[1..] == PollsFor(polls, rest);
      assert order == [order[0]] + rest && order[0] !in rest;
      assert forall id :: id in Elems(polls[order[0]]) <==> IsLive(subs, id) && subs[id].room == order[0];
    }
  }

  // ------------------------------------------------------------------ the invariant

  /** What a connection has received, by how its first push went. */
  predicate StartsAs(how: FirstPush, got: seq<Sent>) {
    match how
    case NotYet => got == []
    case Shown => got != [] && got[0].StateSent?
    case _ => got == [] || got[0].ReadySent?
  }

  ghost predicate FirstsOk(first: map<nat, FirstPush>, got: map<nat, seq<Sent>>, tracks: map<nat, Track>) {
    forall id :: id in first ==>
      id in tracks && tracks[id].stage.Direct? && id in got && StartsAs(first[id], got[id])
  }

  /** Such a subscription never asks for a back-fill, and is not marked ready before its first push. */
  ghost predicate SubsOk(first: map<nat, FirstPush>, subs: map<nat, Sub>) {
    forall id :: id in first && id in subs ==>
      subs[id].from.None? && !subs[id].malformed && (first[id].NotYet? ==> !subs[id].ready)
  }

  /** Nothing received although the first push is over: the tick in progress still owes the first event,
      or the subscription is about to go. */
  ghost predicate OwedReady(id: nat, w: Work, subs: map<nat, Sub>) {
    && id !in w.pings && id !in Awaiting(w.polls)
    && (id in w.readies || id in w.report.failed || id !in subs)
  }

  /** Before the first push, the tick that pushes is the one that sends the first event. */
  predicate PushThenReady(id: nat, w: Work) {
    && id !in w.pings
    && (id in w.report.readies ==> id in Awaiting(w.polls))
    && (id in w.readies <==> id in Awaiting(w.polls))
  }

  ghost predicate ScheduleOk(w: Work, first: map<nat, FirstPush>, got: map<nat, seq<Sent>>, subs: map<nat, Sub>)
    requires forall id :: id in first ==> id in got
  {
    forall id :: id in first ==>
      if first[id].NotYet? then PushThenReady(id, w) else got[id] == [] ==> OwedReady(id, w, subs)
  }

  ghost predicate SilentGone(first: map<nat, FirstPush>, got: map<nat, seq<Sent>>, subs: map<nat, Sub>)
    requires forall id :: id in first ==> id in got
  {
    forall id :: id in first && !first[id].NotYet? && got[id] == [] ==> id !in subs
  }

  ghost predicate Known(w: Work, tracks: map<nat, Track>) {
    DisjointPolls(w.polls) && forall id :: id in Awaiting(w.polls) + w.report.readies ==> id in tracks
  }

  ghost predicate FirstInv(s: Sys) {
    && FirstsOk(s.first, s.got, s.tracks)
    && SubsOk(s.first, s.hub.subs)
    && (if s.work.Some? then Known(s.work.value, s.tracks) && ScheduleOk(s.work.value, s.first, s.got, s.hub.subs)
        else SilentGone(s.first, s.got, s.hub.subs))
  }

  // ------------------------------------------------------------------ every step keeps it

  lemma NewcomerHasNothing(first: map<nat, FirstPush>, got: map<nat, seq<Sent>>, tracks: map<nat, Track>, id: nat,
                           t: Track)
    requires FirstsOk(first, got, tracks) && id !in tracks
    ensures FirstsOk(first, got[id := []], tracks[id := t])
    ensures t.stage.Direct? ==> FirstsOk(first[id := NotYet], got[id := []], tracks[id := t])
  {
  }

  lemma NewcomerNotScheduled(w: Work, first: map<nat, FirstPush>, got: map<nat, seq<Sent>>, subs: map<nat, Sub>,
                             tracks: map<nat, Track>, id: nat, t: Track, sub: Sub)
    requires FirstsOk(first, got, tracks) && id !in tracks
    requires WorkOk(w, tracks) && Known(w, tracks) && ScheduleOk(w, first, got, subs)
    ensures Known(w, tracks[id := t]) && ScheduleOk(w, first, got[id := []], subs[id := sub])
    ensures ScheduleOk(w, first[id := NotYet], got[id := []], subs[id := sub])
  {
  }

  lemma SubscribeKeepsFirst(s: Sys, player: string, room: string, from: Option<int>, malformed: bool)
    requires SysInv(s) && FirstInv(s)
    ensures FirstInv(s.(hub := Subscribed(s.hub, player, room, from, malformed),
                        got := s.got[s.hub.nextId := []],
                        tracks := s.tracks[s.hub.nextId := FirstTrack(player, room, from, malformed)],
                        first := if malformed || from.Some? then s.first else s.first[s.hub.nextId := NotYet]))
  {
    var id, t := s.hub.nextId, FirstTrack(player, room, from, malformed);
    assert id !in s.tracks;
    NewcomerHasNothing(s.first, s.got, s.tracks, id, t);
    if s.work.Some? {
      NewcomerNotScheduled(s.work.value, s.first, s.got, s.hub.subs, s.tracks, id, t,
                           Subscribed(s.hub, player, room, from, malformed).subs[id]);
    }
  }

  lemma BeginKeepsFirst(s: Sys, now: int, plan: Plan, order: seq<string>)
    requires SysInv(s) && FirstInv(s) && Enabled(s, BeginEv(now, plan, order))
    ensures var subs := AllClocked(s.hub, now).subs;
      && (forall id :: id in plan.fills ==> id in subs && WantsBackfill(subs[id]))
      && (forall room :: room in order ==> room in plan.polls)
      && FirstInv(s.(hub := AllClocked(s.hub, now),
                     work := Some(Work(now, FillsFor(subs, plan.fills), PollsFor(plan.polls, order), plan.readies,
                                       plan.pings,
                                       Report(map[], {}, map[], Elems(plan.readies), Elems(plan.pings), {})))))
  {
    var subs := AllClocked(s.hub, now).subs;
    PlanPolls(subs, now, plan, order);
    PlannedPolls(subs, plan.polls, order);
    var w := Work(now, FillsFor(subs, plan.fills), PollsFor(plan.polls, order), plan.readies, plan.pings,
                  Report(map[], {}, map[], Elems(plan.readies), Elems(plan.pings), {}));
    assert forall id :: IsLive(subs, id) ==> subs[id].room in plan.polls.Keys;
    assert forall room :: room in Elems(order) ==> room in order;
    assert forall id :: id in Awaiting(w.polls) <==> IsLive(subs, id);
    LivesAreTracked(s.hub.subs, s.tracks, now);
    ClockedSubsOk(s.first, s.hub.subs, now);
    ScheduledAtBegin(s.first, s.got, s.hub.subs, now, plan, w);
    assert Known(w, s.tracks);
  }

  lemma ClockedSubsOk(first: map<nat, FirstPush>, subs: map<nat, Sub>, now: int)
    requires SubsOk(first, subs)
    ensures SubsOk(first, map id | id in subs :: Clocked(subs[id], now))
  {
  }

  lemma LivesAreTracked(subs: map<nat, Sub>, tracks: map<nat, Track>, now: int)
    requires AllLinked(subs, tracks, None)
    ensures forall id :: id in subs ==> id in tracks
  {
  }

  lemma ScheduledAtBegin(first: map<nat, FirstPush>, got: map<nat, seq<Sent>>, subs0: map<nat, Sub>, now: int,
                         plan: Plan, w: Work)
    requires forall id :: id in first ==> id in got
    requires SubsOk(first, subs0) && SilentGone(first, got, subs0)
    requires var subs: map<nat, Sub> := map id | id in subs0 :: Clocked(subs0[id], now);
      && ReadiesOk(subs, plan.readies) && PingsOk(subs, now, plan.pings)
      && (forall id :: id in Awaiting(w.polls) <==> IsLive(subs, id))
    requires w.readies == plan.readies && w.pings == plan.pings && w.report.readies == Elems(plan.readies)
    ensures ScheduleOk(w, first, got, subs0)
    ensures ScheduleOk(w, first, got, map id | id in subs0 :: Clocked(subs0[id], now))
  {
    forall id | id in first
      ensures if first[id].NotYet? then PushThenReady(id, w) else got[id] == [] ==> OwedReady(id, w, subs0)
    {
      assert id in w.report.readies <==> id in plan.readies;
    }
  }

  /** A back-fill's step touches the connection and the room at the head of the list, and no push. */
  ghost predicate HeadOnly(s: Sys, q: Sys, f: Fill) {
    && s.work.Some? && q.work.Some? && q.first == s.first && q.hub.subs == s.hub.subs
    && q.world == s.world && q.seen == s.seen
    && q.hub.pushed.Keys <= s.hub.pushed.Keys + {f.room}
    && q.tracks.Keys == s.tracks.Keys && (forall k :: k in s.tracks ==> q.tracks[k].room == s.tracks[k].room)
    && (forall k :: k in s.tracks && k != f.id ==> q.tracks[k] == s.tracks[k])
    && (forall k :: k in s.got && k != f.id ==> k in q.got && q.got[k] == s.got[k])
    && var w, w' := s.work.value, q.work.value;
       && w'.polls == w.polls && w'.readies == w.readies && w'.pings == w.pings
       && w'.report.readies == w.report.readies && w.report.failed <= w'.report.failed
       && w.fills != [] && w.fills[0] == f
       && (w'.fills == w.fills[1..] || (w'.fills != [] && w'.fills[0].id == f.id && w'.fills[1..] == w.fills[1..]))
  }

  lemma AskHeadOnly(s: Sys, w: Work, ok: bool)
    requires s.work == Some(w) && FillReady(s, w) && w.fills[0].Ask?
    ensures HeadOnly(s, AskStep(s, w, ok), w.fills[0])
  {
  }

  lemma FrameHeadOnly(s: Sys, w: Work, ok: bool)
    requires s.work == Some(w) && FillReady(s, w) && w.fills[0].Frames?
    ensures HeadOnly(s, FrameStep(s, w, ok), w.fills[0])
  {
  }

  lemma NoteFrameHeadOnly(s: Sys, w: Work)
    requires s.work == Some(w) && FillReady(s, w) && w.fills[0].NoteFrame?
    ensures HeadOnly(s, NoteFrameStep(s, w), w.fills[0])
  {
  }

  lemma FetchHeadOnly(s: Sys, w: Work, ok: bool)
    requires s.work == Some(w) && FillReady(s, w) && w.fills[0].Reset?
    ensures HeadOnly(s, FetchStep(s, w, ok), w.fills[0])
  {
  }

  lemma ResetHeadOnly(s: Sys, w: Work, ok: bool)
    requires s.work == Some(w) && FillReady(s, w) && w.fills[0].WriteReset?
    ensures HeadOnly(s, ResetStep(s, w, ok), w.fills[0])
  {
  }

  lemma NoteResetHeadOnly(s: Sys, w: Work)
    requires s.work == Some(w) && FillReady(s, w) && w.fills[0].NoteReset?
    ensures HeadOnly(s, NoteResetStep(s, w), w.fills[0])
  {
  }

  lemma FillHeadOnly(s: Sys, ok: bool)
    requires SysInv(s) && Enabled(s, FillEv(ok))
    ensures HeadOnly(s, Step(s, FillEv(ok)), s.work.value.fills[0])
    ensures var f := s.work.value.fills[0];
      FillOk(f, s.tracks) && f.id in s.tracks && s.tracks[f.id].room == f.room && !s.tracks[f.id].stage.Direct?
  {
    FillFacts(s);
    var w := s.work.value;
    match w.fills[0]
    case Ask(_, _, _) => AskHeadOnly(s, w, ok);
    case Frames(_, _, _, _) => FrameHeadOnly(s, w, ok);
    case NoteFrame(_, _, _, _) => NoteFrameHeadOnly(s, w);
    case Reset(_, _, _, _) => FetchHeadOnly(s, w, ok);
    case WriteReset(_, _, _, _, _) => ResetHeadOnly(s, w, ok);
    case NoteReset(_, _, _, _, _, _) => NoteResetHeadOnly(s, w);
  }

  lemma HeadOnlyKeepsFirst(s: Sys, q: Sys, f: Fill)
    requires FirstInv(s) && HeadOnly(s, q, f) && f.id !in s.first
    ensures FirstInv(q)
  {
    OthersUntouched(s.first, s.got, q.got, s.tracks, q.tracks, s.work.value, q.work.value, s.hub.subs);
  }

  lemma OthersUntouched(first: map<nat, FirstPush>, got: map<nat, seq<Sent>>, got': map<nat, seq<Sent>>,
                        tracks: map<nat, Track>, tracks': map<nat, Track>, w: Work, w': Work, subs: map<nat, Sub>)
    requires FirstsOk(first, got, tracks) && Known(w, tracks) && ScheduleOk(w, first, got, subs)
    requires forall id :: id in first ==>
      id in got' && got'[id] == got[id] && id in tracks' && tracks'[id] == tracks[id]
    requires forall id :: id in tracks ==> id in tracks'
    requires w'.polls == w.polls && w'.readies == w.readies && w'.pings == w.pings
    requires w'.report.readies == w.report.readies && w.report.failed <= w'.report.failed
    ensures FirstsOk(first, got', tracks') && Known(w', tracks') && ScheduleOk(w', first, got', subs)
  {
  }

  /** The head push is over for `ids`, with `polls` left: what each had received, and what it has now. */
  lemma PollKeepsFirst(first: map<nat, FirstPush>, got: map<nat, seq<Sent>>, got': map<nat, seq<Sent>>,
                       tracks: map<nat, Track>, w: Work, polls: seq<Poll>, failed: set<nat>, ids: seq<nat>,
                       how: FirstPush, subs: map<nat, Sub>)
    requires FirstsOk(first, got, tracks) && Known(w, tracks) && ScheduleOk(w, first, got, subs)
    requires SubsOk(first, subs)
    requires got'.Keys == got.Keys && !how.NotYet?
    requires DisjointPolls(polls) && Elems(ids) !! Awaiting(polls) && Awaiting(w.polls) == Elems(ids) + Awaiting(polls)
    requires forall id :: id in got ==>
      if how.Shown? && id in ids
      then |got'[id]| > |got[id]| && got[id] <= got'[id] && got'[id][|got[id]|].StateSent?
      else got'[id] == got[id]
    ensures var first' := AfterPush(first, ids, how);
      var w' := w.(polls := polls, report := w.report.(failed := w.report.failed + failed));
      FirstsOk(first', got', tracks) && Known(w', tracks) && ScheduleOk(w', first', got', subs) && SubsOk(first', subs)
  {
    var first' := AfterPush(first, ids, how);
    var w' := w.(polls := polls, report := w.report.(failed := w.report.failed + failed));
    forall id | id in first
      ensures StartsAs(first'[id], got'[id])
      ensures if first'[id].NotYet? then PushThenReady(id, w') else got'[id] == [] ==> OwedReady(id, w', subs)
    {
      assert id in ids <==> id in Elems(ids);
    }
  }

  /** The head of the list of rooms is over without a write. */
  lemma NothingPushed(s: Sys, w: Work, how: FirstPush)
    requires FirstInv(s) && s.work == Some(w) && w.polls != [] && !how.NotYet? && !how.Shown?
    ensures FirstInv(s.(work := Some(w.(polls := w.polls[1..])), first := AfterPush(s.first, w.polls[0].ids, how)))
  {
    PollKeepsFirst(s.first, s.got, s.got, s.tracks, w, w.polls[1..], {}, w.polls[0].ids, how, s.hub.subs);
    assert w.report.failed + {} == w.report.failed;
  }

  /** It goes on with the same subscriptions. */
  lemma PollGoesOn(s: Sys, w: Work, p: Poll, pushed: map<string, string>)
    requires FirstInv(s) && s.work == Some(w) && w.polls != [] && p.ids == w.polls[0].ids
    ensures FirstInv(s.(hub := s.hub.(pushed := pushed), work := Some(w.(polls := [p] + w.polls[1..]))))
  {
    var w' := w.(polls := [p] + w.polls[1..]);
    assert w'.polls[1..] == w.polls[1..];
    assert Awaiting(w'.polls) == Awaiting(w.polls);
  }

  lemma LaterAwaiting(p: Poll, later: seq<nat>, rest: seq<Poll>, polls: seq<Poll>)
    requires p.Push? && p.ids != [] && later == p.ids[1..] && DisjointPolls([p] + rest)
    requires polls == (if later == [] then [] else [Push(p.room, p.s, later)]) + rest
    ensures DisjointPolls(polls) && Elems([p.ids[0]]) !! Awaiting(polls)
    ensures Awaiting([p] + rest) == Elems([p.ids[0]]) + Awaiting(polls)
  {
    var id := p.ids[0];
    assert p.ids == [id] + later;
    assert ([p] + rest)[1..] == rest;
    assert NoDup(later) && id !in later;
    assert Elems(p.ids) == Elems([id]) + Elems(later);
    if later == [] {
      assert polls == rest && Elems(later) == {};
    } else {
      assert polls[1..] == rest && polls[0].ids == later;
    }
  }

  lemma PushKeepsFirst(s: Sys, w: Work, ok: bool)
    requires FirstInv(s) && s.work == Some(w) && PollReady(s, w) && w.polls[0].Push?
    ensures FirstInv(PushStep(s, w, ok))
  {
    var q := PushStep(s, w, ok);
    var p := w.polls[0];
    var polls := q.work.value.polls;
    assert w.polls == [p] + w.polls[1..];
    LaterAwaiting(p, p.ids[1..], w.polls[1..], polls);
    var failed := if ok && !Terminal(p.s) then {} else {p.ids[0]};
    PollKeepsFirst(s.first, s.got, q.got, s.tracks, w, polls, failed, [p.ids[0]], if ok then Shown else Lost,
                   s.hub.subs);
    assert w.report.failed + {} == w.report.failed;
  }

  lemma PollEvKeepsFirst(s: Sys, w: Work, ok: bool)
    requires FirstInv(s) && s.work == Some(w) && PollReady(s, w)
    ensures FirstInv(PollStep(s, w, ok))
  {
    var p := w.polls[0];
    match p
    case Query(_, _) =>
      if !ok || p.room !in s.world {
        NothingPushed(s, w, NoAnswer);
      } else {
        PollGoesOn(s, w, Compare(p.room, SnapshotOf(s.world[p.room]), p.ids), s.hub.pushed);
        assert s.(hub := s.hub.(pushed := s.hub.pushed)) == s;
      }
    case Compare(_, _, _) =>
      if !Compared(s.hub.pushed, p.room, p.s).1 {
        NothingPushed(s, w, Unchanged);
      } else {
        PollGoesOn(s, w, Push(p.room, p.s, p.ids), Compared(s.hub.pushed, p.room, p.s).0);
      }
    case Push(_, _, _) => PushKeepsFirst(s, w, ok);
  }

  /** A first event or a heartbeat for `id`, once no push is left. */
  lemma WroteKeepsFirst(s: Sys, w: Work, rest: Work, id: nat, m: Sent, ok: bool)
    requires SysInv(s) && FirstInv(s) && s.work == Some(w) && w.polls == [] && id in s.got
    requires rest == w.(readies := rest.readies, pings := rest.pings)
    requires forall k :: k != id ==> (k in rest.readies <==> k in w.readies) && (k in rest.pings ==> k in w.pings)
    requires (m.ReadySent? && id in w.readies && rest.pings == w.pings)
      || (m.PingSent? && id in w.pings && rest.readies == w.readies)
    ensures FirstInv(Wrote(s, rest, id, m, ok))
  {
    var q := Wrote(s, rest, id, m, ok);
    var w' := q.work.value;
    forall k | k in s.first
      ensures StartsAs(s.first[k], q.got[k])
      ensures if s.first[k].NotYet? then PushThenReady(k, w') else q.got[k] == [] ==> OwedReady(k, w', s.hub.subs)
    {
    }
  }

  lemma CommitKeepsFirst(first: map<nat, FirstPush>, got: map<nat, seq<Sent>>, subs: map<nat, Sub>, w: Work)
    requires forall id :: id in first ==> id in got
    requires SubsOk(first, subs) && ScheduleOk(w, first, got, subs) && w.polls == [] && w.readies == []
    ensures var after := AllAfterTick(subs, w.report, w.now);
      SubsOk(first, after) && SilentGone(first, got, after)
  {
    var after := AllAfterTick(subs, w.report, w.now);
    forall id | id in first && id in after
      ensures after[id].from.None? && !after[id].malformed && (first[id].NotYet? ==> !after[id].ready)
    {
      assert id in subs;
    }
  }

  lemma FillKeepsFirst(s: Sys, ok: bool)
    requires SysInv(s) && FirstInv(s) && Enabled(s, FillEv(ok))
    ensures FirstInv(Step(s, FillEv(ok)))
  {
    FillHeadOnly(s, ok);
    HeadOnlyKeepsFirst(s, Step(s, FillEv(ok)), s.work.value.fills[0]);
  }

  lemma StepKeepsFirst(s: Sys, ev: HubEvent)
    requires SysInv(s) && FirstInv(s) && Enabled(s, ev)
    ensures FirstInv(Step(s, ev))
  {
    match ev
    case SubscribeEv(player, room, from, malformed) => SubscribeKeepsFirst(s, player, room, from, malformed);
    case BeginEv(now, plan, order) => BeginKeepsFirst(s, now, plan, order);
    case FillEv(ok) => FillKeepsFirst(s, ok);
    case PollEv(ok) =>
      PollFacts(s);
      PollEvKeepsFirst(s, s.work.value, ok);
    case ReadyEv(ok) =>
      var w := s.work.value;
      assert w.readies[0] in w.readies;
      WroteKeepsFirst(s, w, w.(readies := w.readies[1..]), w.readies[0],
                      ReadySent(s.tracks[w.readies[0]].player, s.tracks[w.readies[0]].room), ok);
    case PingEv(ok) =>
      var w := s.work.value;
      assert w.pings[0] in w.pings;
      WroteKeepsFirst(s, w, w.(pings := w.pings[1..]), w.pings[0], PingSent, ok);
    case CommitEv => CommitKeepsFirst(s.first, s.got, s.hub.subs, s.work.value);
    case _ =>
  }

  lemma {:induction false} RunKeepsFirst(s: Sys, evs: seq<HubEvent>)
    requires SysInv(s) && FirstInv(s) && Legal(s, evs)
    ensures FirstInv(Run(s, evs))
    decreases |evs|
  {
    if evs != [] {
      StepKeepsInv(s, evs[0]);
      StepKeepsFirst(s, evs[0]);
      RunKeepsFirst(Step(s, evs[0]), evs[1..]);
    }
  }

  // ------------------------------------------------------------------ session.ready

  /** Over any run: the first message of a subscription without a back-fill is `session.ready` exactly
      when its first push sent it nothing, and the room's state otherwise. */
  lemma ReadyIsFirstIff(start: Sys, evs: seq<HubEvent>, id: nat)
    requires Start(start) && SysInv(start) && Legal(start, evs)
    requires id in Run(start, evs).first && id in Run(start, evs).got && Run(start, evs).got[id] != []
    ensures var s := Run(start, evs);
      && !s.first[id].NotYet?
      && (s.got[id][0].ReadySent? <==> s.first[id].NoAnswer? || s.first[id].Unchanged? || s.first[id].Lost?)
      && (s.got[id][0].StateSent? <==> s.first[id].Shown?)
  {
    RunKeepsFirst(start, evs);
    var s := Run(start, evs);
    assert StartsAs(s.first[id], s.got[id]);
  }

  /** What the next step for a tick's first room means to one of its subscriptions: the call that fetches
      the state, the comparison with the state last pushed, or a write. */
  function PushOutcome(s: Sys, p: Poll, ok: bool, id: nat): FirstPush
    requires p.ids != []
  {
    match p
    case Query(room, _) => if !ok || room !in s.world then NoAnswer else NotYet
    case Compare(room, state, _) =>
      if room in s.hub.pushed && s.hub.pushed[room] == StateSignature(state) && !Terminal(state) then Unchanged
      else NotYet
    case Push(_, _, ids) => if id != ids[0] then NotYet else if ok then Shown else Lost
  }

  lemma PollDecides(s: Sys, w: Work, ok: bool, id: nat)
    requires PollReady(s, w) && id in s.first
    ensures var q := PollStep(s, w, ok);
      && id in q.first
      && q.first[id] == if s.first[id].NotYet? && id in w.polls[0].ids then PushOutcome(s, w.polls[0], ok, id)
                        else s.first[id]
  {
    if w.polls[0].Compare? {
      SignatureNotEmpty(w.polls[0].s);
    }
  }

  /** The state call, the table of pushed states and the write decide how a first push goes; no other step
      does, and what is decided stays. */
  lemma FirstPushDecides(s: Sys, ev: HubEvent, id: nat)
    requires SysInv(s) && Enabled(s, ev) && id in s.first && id in s.tracks
    ensures ev.PollEv? ==> s.work.value.polls[0].ids != []
    ensures id in Step(s, ev).first
    ensures Step(s, ev).first[id] ==
      if s.first[id].NotYet? && ev.PollEv? && id in s.work.value.polls[0].ids
      then PushOutcome(s, s.work.value.polls[0], ev.ok, id)
      else s.first[id]
  {
    match ev
    case FillEv(ok) =>
      FillHeadOnly(s, ok);
    case PollEv(ok) =>
      PollFacts(s);
      PollDecides(s, s.work.value, ok, id);
    case _ =>
  }

  // ------------------------------------------------------------------ a subscription alone on its room

  ghost predicate Alone(tracks: map<nat, Track>, id: nat) {
    id in tracks && forall k :: k in tracks && tracks[k].room == tracks[id].room ==> k == id
  }

  function PollsLeft(work: Option<Work>): seq<Poll> {
    if work.Some? then work.value.polls else []
  }

  predicate BeingPushed(polls: seq<Poll>, id: nat) {
    polls != [] && polls[0].Push? && id in polls[0].ids
  }

  /** Subscribing forgot the room's last state, and only other subscriptions of the room put one back,
      besides the push that is about to reach this one. */
  ghost predicate AloneOk(first: map<nat, FirstPush>, tracks: map<nat, Track>, pushed: map<string, string>,
                          polls: seq<Poll>) {
    forall id :: id in first && Alone(tracks, id) ==>
      !first[id].Unchanged? && (first[id].NotYet? && tracks[id].room in pushed ==> BeingPushed(polls, id))
  }

  ghost predicate AloneInv(s: Sys) {
    AloneOk(s.first, s.tracks, s.hub.pushed, PollsLeft(s.work))
  }

  lemma OneRoomPushed(s: Sys, q: Sys, f: Fill)
    requires AloneInv(s) && HeadOnly(s, q, f)
    requires f.id in s.tracks && f.id !in s.first && s.tracks[f.id].room == f.room
    ensures AloneInv(q)
  {
    forall id | id in s.first && Alone(q.tracks, id) ensures Alone(s.tracks, id) && s.tracks[id].room != f.room {
      assert f.id in q.tracks;
    }
  }

  lemma PollKeepsAlone(s: Sys, w: Work, ok: bool)
    requires AloneInv(s) && s.work == Some(w) && PollReady(s, w) && PollOk(w.polls[0], s.tracks)
    ensures AloneInv(PollStep(s, w, ok))
  {
    var p := w.polls[0];
    var q := PollStep(s, w, ok);
    forall id | id in q.first && Alone(q.tracks, id)
      ensures !q.first[id].Unchanged?
      ensures q.first[id].NotYet? && s.tracks[id].room in q.hub.pushed ==> BeingPushed(q.work.value.polls, id)
    {
      PollDecides(s, w, ok, id);
      assert p.ids[0] in p.ids && s.tracks[p.ids[0]].room == p.room;
    }
  }

  lemma StepKeepsAlone(s: Sys, ev: HubEvent)
    requires SysInv(s) && FirstInv(s) && AloneInv(s) && Enabled(s, ev)
    ensures AloneInv(Step(s, ev))
  {
    match ev
    case SubscribeEv(player, room, from, malformed) => SubscribeKeepsAlone(s, player, room, from, malformed);
    case FillEv(ok) =>
      FillHeadOnly(s, ok);
      OneRoomPushed(s, Step(s, ev), s.work.value.fills[0]);
    case PollEv(ok) =>
      PollFacts(s);
      PollKeepsAlone(s, s.work.value, ok);
    case _ =>
  }

  lemma SubscribeKeepsAlone(s: Sys, player: string, room: string, from: Option<int>, malformed: bool)
    requires SysInv(s) && FirstInv(s) && AloneInv(s)
    ensures AloneInv(s.(hub := Subscribed(s.hub, player, room, from, malformed),
                        got := s.got[s.hub.nextId := []],
                        tracks := s.tracks[s.hub.nextId := FirstTrack(player, room, from, malformed)],
                        first := if malformed || from.Some? then s.first else s.first[s.hub.nextId := NotYet]))
  {
    assert s.hub.nextId !in s.tracks;
    var tracks := s.tracks[s.hub.nextId := FirstTrack(player, room, from, malformed)];
    forall id | id in s.first && Alone(tracks, id) ensures Alone(s.tracks, id) {
      assert forall k :: k in s.tracks ==> k in tracks;
    }
  }

  lemma {:induction false} RunKeepsAlone(s: Sys, evs: seq<HubEvent>)
    requires SysInv(s) && FirstInv(s) && AloneInv(s) && Legal(s, evs)
    ensures FirstInv(Run(s, evs)) && AloneInv(Run(s, evs))
    decreases |evs|
  {
    if evs != [] {
      StepKeepsInv(s, evs[0]);
      StepKeepsFirst(s, evs[0]);
      StepKeepsAlone(s, evs[0]);
      RunKeepsAlone(Step(s, evs[0]), evs[1..]);
    }
  }

  /** If nobody else ever subscribed to the room, the first message is `session.ready` exactly when the
      state call failed, the room was gone, or the write of the state failed. */
  lemma AloneReadyIsFirstIff(start: Sys, evs: seq<HubEvent>, id: nat)
    requires Start(start) && SysInv(start) && Legal(start, evs)
    requires id in Run(start, evs).first && id in Run(start, evs).got && Run(start, evs).got[id] != []
    requires Alone(Run(start, evs).tracks, id)
    ensures var s := Run(start, evs); s.got[id][0].ReadySent? <==> s.first[id].NoAnswer? || s.first[id].Lost?
  {
    RunKeepsAlone(start, evs);
    ReadyIsFirstIff(start, evs, id);
  }
}
