/** Clients whose back-fill does not end: how often they are reset, and when they never become live. */
module StreamPending {
  import opened Wrappers
  import opened Seqs
  import opened RoomCore
  import opened RoomRuns
  import opened RoomHistory
  import opened StreamText
  import opened StreamCore
  import opened StreamProtocol
  import opened StreamResume
  import opened StreamTheorems
  import opened StreamFirst

  /** A client that resumes and has not been sent a frame yet. */
  predicate Pending(s: Sys, id: nat) {
    id in s.tracks && s.tracks[id].stage.Waiting? && s.tracks[id].since.Some?
  }

  lemma PendingHasNothing(s: Sys, id: nat)
    requires SysInv(s) && Pending(s, id)
    ensures id in s.got && States(s.got[id]) == []
    ensures id in s.hub.subs ==> WantsBackfill(s.hub.subs[id])
  {
    assert Received(s.tracks[id], s.got[id]);
    if id in s.hub.subs {
      assert Linked(s.hub.subs[id], s.tracks[id], id, s.work);
    }
  }

  // ------------------------------------------------------------------ away too long

  /** The frames after `since` are not all held any more, or the room is gone for good. */
  predicate OutOfReach(s: Sys, id: nat) {
    Pending(s, id) && HoldsFrom(s, s.tracks[id].room, s.tracks[id].since.value + 2)
  }

  lemma OldestAfter(r: Room, ev: Event)
    requires RoomOk(r)
    ensures Oldest(r.log) <= Oldest(Apply(r, ev).log)
  {
    ApplyKeepsOk(r, ev);
    LogGrows(r, ev);
    OldestNeverFalls(r.log, Apply(r, ev).log);
  }

  /** A room holds nothing older than frame `n`, now and later. */
  predicate HoldsFrom(s: Sys, room: string, n: int) {
    room in s.seen && (room in s.world ==> n <= Oldest(s.world[room].log))
  }

  lemma PollLeavesWorld(s: Sys, w: Work, ok: bool)
    requires PollReady(s, w)
    ensures var q := PollStep(s, w, ok); q.tracks == s.tracks && q.world == s.world && q.seen == s.seen
  {
  }

  /** Steps that are neither a back-fill's nor a room's nor a new subscription. */
  predicate Aside(ev: HubEvent) {
    ev.UnsubscribeEv? || ev.BeginEv? || ev.PollEv? || ev.ReadyEv? || ev.PingEv? || ev.CommitEv?
  }

  lemma AsideLeavesWorld(s: Sys, ev: HubEvent)
    requires SysInv(s) && Enabled(s, ev) && Aside(ev)
    ensures var q := Step(s, ev); q.tracks == s.tracks && q.world == s.world && q.seen == s.seen
  {
    if ev.PollEv? {
      PollFacts(s);
      PollLeavesWorld(s, s.work.value, ev.ok);
    }
  }

  lemma FillLeavesWorld(s: Sys, ok: bool)
    requires SysInv(s) && Enabled(s, FillEv(ok))
    ensures var q := Step(s, FillEv(ok)); q.world == s.world && q.seen == s.seen
  {
    FillHeadOnly(s, ok);
  }

  lemma StepHoldsFrom(s: Sys, ev: HubEvent, room: string, n: int)
    requires SysInv(s) && Enabled(s, ev) && HoldsFrom(s, room, n)
    ensures HoldsFrom(Step(s, ev), room, n)
  {
    if Aside(ev) {
      AsideLeavesWorld(s, ev);
    } else if ev.FillEv? {
      FillLeavesWorld(s, ev.ok);
    } else if ev.RoomEv? {
      OldestAfter(s.world[ev.room], ev.ev);
    }
  }

  /** Over any run the oldest frame a room holds never falls. */
  lemma {:induction false} OldestHeldNeverFalls(s: Sys, evs: seq<HubEvent>, room: string, n: int)
    requires SysInv(s) && Legal(s, evs) && HoldsFrom(s, room, n)
    ensures HoldsFrom(Run(s, evs), room, n)
    decreases |evs|
  {
    if evs != [] {
      StepKeepsInv(s, evs[0]);
      StepHoldsFrom(s, evs[0], room, n);
      OldestHeldNeverFalls(Step(s, evs[0]), evs[1..], room, n);
    }
  }

  /** Nothing to send: the client has the newest frame, or lacks one that is not held any more. */
  predicate Beyond(r: Room, since: int) {
    since >= r.frame || since + 1 < Oldest(r.log)
  }

  lemma AskLeavesTracks(s: Sys, w: Work, ok: bool)
    requires s.work == Some(w) && w.fills != [] && w.fills[0].Ask? && w.fills[0].id in s.tracks
    requires var f := w.fills[0];
      ok && f.room in s.world ==> RoomOk(s.world[f.room]) && Beyond(s.world[f.room], f.since)
    ensures w.fills[0].room in s.world && ok ==> Ring(s.world[w.fills[0].room].log) != []
    ensures AskStep(s, w, ok).tracks == s.tracks
  {
    var f := w.fills[0];
    if ok && f.room in s.world {
      WindowRefinesLog(s.world[f.room], f.since);
    }
  }

  /** No step of a back-fill but an answered query moves a waiting client on. */
  lemma OwnFillLeavesTrack(s: Sys, w: Work, ok: bool, id: nat)
    requires OutOfReach(s, id) && s.work == Some(w) && FillReady(s, w) && w.fills[0].id == id
    requires var f := w.fills[0]; f.room in s.world ==> RoomOk(s.world[f.room])
    ensures FillStep(s, w, ok).tracks == s.tracks
  {
    if w.fills[0].Ask? {
      AskLeavesTracks(s, w, ok);
    }
  }

  lemma FillLeavesTrack(s: Sys, ok: bool, id: nat)
    requires SysInv(s) && Enabled(s, FillEv(ok)) && OutOfReach(s, id)
    ensures var q := Step(s, FillEv(ok)); id in q.tracks && q.tracks[id] == s.tracks[id]
  {
    FillFacts(s);
    if s.work.value.fills[0].id == id {
      OwnFillLeavesTrack(s, s.work.value, ok, id);
    } else {
      FillHeadOnly(s, ok);
    }
  }

  lemma StepLeavesTrack(s: Sys, ev: HubEvent, id: nat)
    requires SysInv(s) && Enabled(s, ev) && OutOfReach(s, id)
    ensures var q := Step(s, ev); id in q.tracks && q.tracks[id] == s.tracks[id]
  {
    if Aside(ev) {
      AsideLeavesWorld(s, ev);
    } else if ev.FillEv? {
      FillLeavesTrack(s, ev.ok, id);
    }
  }

  lemma StaysOutOfReach(s: Sys, ev: HubEvent, id: nat)
    requires SysInv(s) && Enabled(s, ev) && OutOfReach(s, id)
    ensures OutOfReach(Step(s, ev), id)
  {
    StepHoldsFrom(s, ev, s.tracks[id].room, s.tracks[id].since.value + 2);
    StepLeavesTrack(s, ev, id);
  }

  /** A client that has been away too long stays so in every continuation: it is never sent a frame or a
      live state, and never becomes live, for as long as it stays. */
  lemma {:induction false} TooLongAwayNeverLive(s: Sys, evs: seq<HubEvent>, id: nat)
    requires SysInv(s) && Legal(s, evs) && OutOfReach(s, id)
    ensures var q := Run(s, evs);
      && OutOfReach(q, id) && id in q.got && States(q.got[id]) == []
      && (id in q.hub.subs ==> WantsBackfill(q.hub.subs[id]))
    decreases |evs|
  {
    if evs == [] {
      PendingHasNothing(s, id);
    } else {
      StepKeepsInv(s, evs[0]);
      StaysOutOfReach(s, evs[0], id);
      TooLongAwayNeverLive(Step(s, evs[0]), evs[1..], id);
    }
  }

  // ------------------------------------------------------------------ one reset for every tick

  function Resets(got: seq<Sent>): nat {
    if got == [] then 0
    else Resets(got[..|got| - 1]) + if got[|got| - 1].ResetSent? then 1 else 0
  }

  lemma ResetsMore(got: seq<Sent>, m: Sent)
    ensures Resets(got + [m]) == Resets(got) + if m.ResetSent? then 1 else 0
  {
    assert (got + [m])[..|got|] == got;
  }

  /** A back-fill the tick in progress has yet to deal with. */
  function Owed(work: Option<Work>, id: nat): nat {
    if work.Some? && id in FillIds(work.value.fills) then 1 else 0
  }

  /** The subscriptions of a list to which a back-fill may still write. */
  function FillIds(fills: seq<Fill>): set<nat> {
    set f | f in fills && !f.NoteReset? :: f.id
  }

  /** If the step is one of this client's back-fill, the room answers, has nothing to send, and the write succeeds. */
  ghost predicate Answered(s: Sys, ev: HubEvent, id: nat)
    requires Enabled(s, ev)
  {
    ev.FillEv? && s.work.value.fills[0].id == id ==>
      var f := s.work.value.fills[0];
      && (!f.NoteReset? ==> ev.ok)
      && (f.Ask? || f.Reset? ==> f.room in s.world)
      && (f.Ask? ==> Beyond(s.world[f.room], f.since))
  }

  ghost predicate AnsweredThroughout(s: Sys, evs: seq<HubEvent>, id: nat)
    requires SysInv(s) && Legal(s, evs)
    decreases |evs|
  {
    evs == [] || (StepKeepsInv(s, evs[0]); Answered(s, evs[0], id) && AnsweredThroughout(Step(s, evs[0]), evs[1..], id))
  }

  /** Ticks that began while the client was subscribed. */
  ghost function TicksBegun(s: Sys, evs: seq<HubEvent>, id: nat): nat
    requires SysInv(s) && Legal(s, evs)
    decreases |evs|
  {
    if evs == [] then 0
    else
      StepKeepsInv(s, evs[0]);
      (if evs[0].BeginEv? && id in s.hub.subs then 1 else 0) + TicksBegun(Step(s, evs[0]), evs[1..], id)
  }

  ghost predicate Balanced(s: Sys, q: Sys, id: nat, begun: nat) {
    && Pending(q, id) && id in s.got && id in q.got
    && Resets(q.got[id]) + Owed(q.work, id) == Resets(s.got[id]) + Owed(s.work, id) + begun
  }

  function FillId(f: Fill): set<nat> {
    if f.NoteReset? then {} else {f.id}
  }

  lemma ListedIds(f: Fill, rest: seq<Fill>)
    ensures FillIds([f] + rest) == FillId(f) + FillIds(rest)
  {
    assert forall g :: g in [f] + rest <==> g == f || g in rest;
  }

  lemma HeadIds(fills: seq<Fill>, tracks: map<nat, Track>)
    requires fills != [] && FillsInOrder(fills, tracks)
    ensures FillIds(fills) == FillId(fills[0]) + FillIds(fills[1..]) && fills[0].id !in FillIds(fills[1..])
  {
    ListedIds(fills[0], fills[1..]);
    assert fills == [fills[0]] + fills[1..];
    HeadIsAlone(fills, tracks);
  }

  lemma OtherFillBalances(s: Sys, q: Sys, f: Fill, id: nat)
    requires Pending(s, id) && HeadOnly(s, q, f) && f.id != id && id in s.got
    requires id in FillIds(q.work.value.fills) <==> id in FillIds(s.work.value.fills)
    ensures Balanced(s, q, id, 0)
  {
  }

  lemma AskBalances(s: Sys, w: Work, id: nat)
    requires SysInv(s) && Pending(s, id) && s.work == Some(w) && w.fills != [] && w.fills[0].Ask? && w.fills[0].id == id
    requires w.fills[0].room in s.world && Beyond(s.world[w.fills[0].room], w.fills[0].since)
    ensures Ring(s.world[w.fills[0].room].log) != []
    ensures Balanced(s, AskStep(s, w, true), id, 0)
  {
    var f := w.fills[0];
    var room := s.world[f.room];
    HeadIds(w.fills, s.tracks);
    WindowRefinesLog(room, f.since);
    ListedIds(Reset(f.id, f.room, ReasonFor(WindowOf(Ring(room.log), room.frame, f.since)), false), w.fills[1..]);
  }

  lemma FetchBalances(s: Sys, w: Work, id: nat)
    requires Pending(s, id) && s.work == Some(w) && FillsInOrder(w.fills, s.tracks) && w.fills != []
    requires w.fills[0].Reset? && w.fills[0].id == id && w.fills[0].room in s.world && id in s.got
    ensures Balanced(s, FetchStep(s, w, true), id, 0)
  {
    var f := w.fills[0];
    HeadIds(w.fills, s.tracks);
    ListedIds(WriteReset(id, f.room, f.reason, f.counts, SnapshotOf(s.world[f.room])), w.fills[1..]);
  }

  lemma OwedUntilWritten(w: Work, tracks: map<nat, Track>, f: Fill)
    requires w.fills != [] && FillsInOrder(w.fills, tracks) && w.fills[0].WriteReset?
    requires f.NoteReset? && f.id == w.fills[0].id
    ensures Owed(Some(w), f.id) == 1 && Owed(Some(w.(fills := [f] + w.fills[1..])), f.id) == 0
  {
    HeadIds(w.fills, tracks);
    ListedIds(f, w.fills[1..]);
  }

  lemma ResetBalances(s: Sys, w: Work, id: nat)
    requires Pending(s, id) && s.work == Some(w) && w.fills != [] && w.fills[0].WriteReset?
      && w.fills[0].id == id && id in s.got && FillsInOrder(w.fills, s.tracks)
    ensures Balanced(s, ResetStep(s, w, true), id, 0)
  {
    var f := w.fills[0];
    OwedUntilWritten(w, s.tracks, NoteReset(id, f.room, f.reason, f.counts, f.s, true));
    ResetsMore(s.got[id], ResetSent(f.reason, f.s));
  }

  lemma NoteBalances(s: Sys, w: Work, id: nat)
    requires Pending(s, id) && s.work == Some(w) && FillsInOrder(w.fills, s.tracks) && w.fills != []
    requires w.fills[0].NoteReset? && w.fills[0].id == id && id in s.got && FillOk(w.fills[0], s.tracks)
    ensures Balanced(s, NoteResetStep(s, w), id, 0)
  {
    HeadIds(w.fills, s.tracks);
  }

  lemma FillListed(s: Sys, q: Sys, f: Fill, id: nat)
    requires s.work.Some? && FillsInOrder(s.work.value.fills, s.tracks) && HeadOnly(s, q, f) && f.id != id
    ensures id in FillIds(q.work.value.fills) <==> id in FillIds(s.work.value.fills)
  {
    var fills, more := s.work.value.fills, q.work.value.fills;
    HeadIds(fills, s.tracks);
    if more != fills[1..] {
      ListedIds(more[0], fills[1..]);
      assert more == [more[0]] + fills[1..];
    }
  }

  lemma FillBalances(s: Sys, ok: bool, id: nat)
    requires SysInv(s) && Enabled(s, FillEv(ok)) && Pending(s, id) && Answered(s, FillEv(ok), id)
    ensures Balanced(s, Step(s, FillEv(ok)), id, 0)
  {
    FillFacts(s);
    var w := s.work.value;
    PendingHasNothing(s, id);
    if w.fills[0].id != id {
      FillHeadOnly(s, ok);
      FillListed(s, Step(s, FillEv(ok)), w.fills[0], id);
      OtherFillBalances(s, Step(s, FillEv(ok)), w.fills[0], id);
    } else {
      match w.fills[0]
      case Ask(_, _, _) => AskBalances(s, w, id);
      case Reset(_, _, _, _) => FetchBalances(s, w, id);
      case WriteReset(_, _, _, _, _) => ResetBalances(s, w, id);
      case NoteReset(_, _, _, _, _, _) => NoteBalances(s, w, id);
      case _ =>
    }
  }

  lemma BeginBalances(s: Sys, now: int, plan: Plan, order: seq<string>, id: nat)
    requires SysInv(s) && Enabled(s, BeginEv(now, plan, order)) && Pending(s, id)
    ensures Balanced(s, Step(s, BeginEv(now, plan, order)), id, if id in s.hub.subs then 1 else 0)
  {
    var subs := AllClocked(s.hub, now).subs;
    PendingHasNothing(s, id);
    PlanPolls(subs, now, plan, order);
    PlannedFills(subs, plan.fills, id);
  }

  lemma PlannedFills(subs: map<nat, Sub>, ids: seq<nat>, id: nat)
    requires forall k :: k in ids ==> k in subs && WantsBackfill(subs[k])
    ensures id in FillIds(FillsFor(subs, ids)) <==> id in ids
  {
    var fills := FillsFor(subs, ids);
    if id in ids {
      var k :| 0 <= k < |ids| && ids[k] == id;
      assert fills[k] in fills && !fills[k].NoteReset?;
    }
  }

  lemma PollBalances(s: Sys, w: Work, ok: bool, id: nat)
    requires SysInv(s) && s.work == Some(w) && PollReady(s, w) && PollOk(w.polls[0], s.tracks) && Pending(s, id)
    ensures Balanced(s, PollStep(s, w, ok), id, 0)
  {
    assert w.polls[0].ids[0] in w.polls[0].ids;
    PendingHasNothing(s, id);
  }

  lemma WroteBalances(s: Sys, w: Work, k: nat, m: Sent, ok: bool, id: nat)
    requires Pending(s, id) && id in s.got && k in s.got && !m.ResetSent?
    requires s.work.Some? && w.fills == s.work.value.fills
    ensures Balanced(s, Wrote(s, w, k, m, ok), id, 0)
  {
    ResetsMore(s.got[k], m);
  }

  lemma StepBalances(s: Sys, ev: HubEvent, id: nat)
    requires SysInv(s) && Enabled(s, ev) && Pending(s, id) && Answered(s, ev, id)
    ensures Balanced(s, Step(s, ev), id, if ev.BeginEv? && id in s.hub.subs then 1 else 0)
  {
    PendingHasNothing(s, id);
    match ev
    case BeginEv(now, plan, order) => BeginBalances(s, now, plan, order, id);
    case FillEv(ok) => FillBalances(s, ok, id);
    case PollEv(ok) =>
      PollFacts(s);
      PollBalances(s, s.work.value, ok, id);
    case ReadyEv(ok) =>
      var w := s.work.value;
      assert w.readies[0] in w.readies;
      WroteBalances(s, w.(readies := w.readies[1..]), w.readies[0],
                    ReadySent(s.tracks[w.readies[0]].player, s.tracks[w.readies[0]].room), ok, id);
    case PingEv(ok) =>
      var w := s.work.value;
      assert w.pings[0] in w.pings;
      WroteBalances(s, w.(pings := w.pings[1..]), w.pings[0], PingSent, ok, id);
    case _ =>
  }

  /** While a client that resumes has the newest frame, or one beyond the window, and its room answers:
      each tick sends it exactly one reset (or is about to), whatever else runs in between, and its
      back-fill stays pending. */
  lemma {:induction false} OneResetPerTick(s: Sys, evs: seq<HubEvent>, id: nat)
    requires SysInv(s) && Legal(s, evs) && Pending(s, id) && AnsweredThroughout(s, evs, id)
    ensures var q := Run(s, evs);
      && Pending(q, id) && id in s.got && id in q.got && States(q.got[id]) == []
      && (id in q.hub.subs ==> WantsBackfill(q.hub.subs[id]))
      && Resets(q.got[id]) + Owed(q.work, id) == Resets(s.got[id]) + Owed(s.work, id) + TicksBegun(s, evs, id)
    decreases |evs|
  {
    if evs == [] {
      PendingHasNothing(s, id);
    } else {
      StepKeepsInv(s, evs[0]);
      StepBalances(s, evs[0], id);
      OneResetPerTick(Step(s, evs[0]), evs[1..], id);
    }
  }
}
