/** What holds in every interleaving of the match queue's request threads. */
module MatchTheorems {
  import opened Wrappers
  import opened Seqs
  import opened MatchCore
  import opened MatchSnapshot
  import opened MatchProtocol

  lemma StartKeepsInv(s: Sys)
    requires Start(s)
    ensures SysInv(s)
  {
  }

  // ------------------------------------------------------------------ one place for every player

  ghost predicate InFlightGroup(s: Sys, p: string) {
    exists t, i, m :: Holds(s.threads, t, i, m) && p in s.threads[t].groups[i].members
  }

  /** Number of the four places `p` is in; a player queued twice would count twice. */
  ghost function Places(s: Sys, p: string): nat
    requires p in s.core.entries
  {
    multiset(s.core.queue)[p]
    + (if InFlightGroup(s, p) then 1 else 0)
    + (if s.core.entries[p].status.Matched? then 1 else 0)
    + (if s.core.entries[p].status.TimedOut? then 1 else 0)
  }

  lemma {:induction false} NoDupCountsOnce(q: seq<string>, p: string)
    requires NoDup(q)
    ensures multiset(q)[p] == if p in q then 1 else 0
  {
    if q != [] {
      assert q == [q[0]] + q[1..];
      assert NoDup(q[1..]);
      NoDupCountsOnce(q[1..], p);
      assert q[0] !in q[1..];
    }
  }

  lemma AllocatingMeansHeld(s: Sys, p: string)
    requires SysInv(s) && p in s.core.entries
    ensures InFlightGroup(s, p) <==> s.core.entries[p].status.Queued? && s.core.entries[p].allocating
  {
    var e := s.core.entries[p];
    assert EntryOk(p, s.core, s.inFlight);
    if e.status.Queued? && e.allocating {
      var t, i :| Holds(s.threads, t, i, e.matchId);
      assert p in s.threads[t].groups[i].members;
    }
    if InFlightGroup(s, p) {
      var t, i, m :| Holds(s.threads, t, i, m) && p in s.threads[t].groups[i].members;
      assert Held(m, s.inFlight[m], s.core);
    }
  }

  /** In every run: each tracked player is in exactly one of the four places, nobody is in a place
      without being tracked, groups of concurrent rounds are disjoint pairs, and the entries of a
      group being allocated are still there. */
  lemma EveryPlayerInOnePlace(s0: Sys, lim: Limits, evs: seq<Event>)
    requires SysInv(s0) && Legal(s0, lim, evs)
    ensures var s := Run(s0, lim, evs);
      && (forall p :: p in s.core.entries ==> Places(s, p) == 1)
      && (forall p :: p in s.core.queue ==> p in s.core.entries)
      && (forall t, i, m :: Holds(s.threads, t, i, m) ==>
            && Pair(s.threads[t].groups[i].members)
            && forall p :: p in s.threads[t].groups[i].members ==> p in s.core.entries)
      && (forall t, i, m, u, j, n, p ::
            (Holds(s.threads, t, i, m) && Holds(s.threads, u, j, n)
             && p in s.threads[t].groups[i].members && p in s.threads[u].groups[j].members)
            ==> t == u && i == j)
  {
    RunKeepsInv(s0, lim, evs);
    var s := Run(s0, lim, evs);
    forall p | p in s.core.entries ensures Places(s, p) == 1 {
      NoDupCountsOnce(s.core.queue, p);
      AllocatingMeansHeld(s, p);
      assert EntryOk(p, s.core, s.inFlight);
    }
    forall t, i, m | Holds(s.threads, t, i, m)
      ensures Held(m, s.threads[t].groups[i].members, s.core)
    {
      assert Held(m, s.inFlight[m], s.core);
    }
  }

  // ------------------------------------------------------------------ matched players

  /** In every run a matched player's whole list is matched to the same room, with the same stamp. */
  lemma MatchedPlayersAgree(s0: Sys, lim: Limits, evs: seq<Event>, p: string)
    requires SysInv(s0) && Legal(s0, lim, evs)
    requires p in Run(s0, lim, evs).core.entries && Run(s0, lim, evs).core.entries[p].status.Matched?
    ensures var c := Run(s0, lim, evs).core;
      && Pair(c.entries[p].members)
      && p in c.entries[p].members
      && forall q :: q in c.entries[p].members ==>
           q in c.entries && c.entries[q].status.Matched? && MatchOf(c.entries[q]) == MatchOf(c.entries[p])
  {
    RunKeepsInv(s0, lim, evs);
    var s := Run(s0, lim, evs);
    assert EntryOk(p, s.core, s.inFlight);
  }

  /** Every player on the list kept untouched, or every one of them gone (or queueing anew). */
  ghost predicate TogetherIn(before: map<string, Entry>, after: map<string, Entry>, ps: seq<string>) {
    || (forall q :: q in ps ==> q in before && q in after && after[q] == before[q])
    || (forall q :: q in ps ==> q !in after || after[q].status.Queued?)
  }

  lemma EnqueueTogether(s: Core, fl: InFlight, lim: Limits, p: string, q: string, r: string, now: int)
    requires Inv(s, fl) && p in s.entries && s.entries[p].status.Matched?
    ensures TogetherIn(s.entries, EnqueueStep(s, q, r, now, lim).core.entries, s.entries[p].members)
  {
    assert EntryOk(p, s, fl);
    MembersSweptTogether(s, fl, p, now, lim);
  }

  lemma CancelTogether(s: Core, fl: InFlight, lim: Limits, p: string, q: string, now: int)
    requires Inv(s, fl) && p in s.entries && s.entries[p].status.Matched?
    ensures TogetherIn(s.entries, CancelStep(s, q, now, lim).core.entries, s.entries[p].members)
  {
    assert EntryOk(p, s, fl);
    MembersSweptTogether(s, fl, p, now, lim);
  }

  /** One step either keeps the match of every player on a list untouched or drops all of them. */
  lemma MatchLeavesTogether(s: Sys, lim: Limits, ev: Event, p: string)
    requires SysInv(s) && Enabled(s, ev)
    requires p in s.core.entries && s.core.entries[p].status.Matched?
    ensures TogetherIn(s.core.entries, Step(s, lim, ev).core.entries, s.core.entries[p].members)
  {
    match ev
    case Insert(t) =>
      var th := s.threads[t];
      EnqueueTogether(s.core, s.inFlight, lim, p, th.player, th.requestId, th.now);
    case Poll(_, now) =>
      MembersSweptTogether(s.core, s.inFlight, p, now, lim);
    case Cancel(_, q, now) =>
      CancelTogether(s.core, s.inFlight, lim, p, q, now);
    case Take(t, ids) =>
      TakeTogether(s.core, s.inFlight, ids, p);
    case CommitNext(t, room) =>
      CommitTogether(s, t, room, p);
    case _ =>
      OthersTogether(s, lim, ev, p);
  }

  lemma OthersTogether(s: Sys, lim: Limits, ev: Event, p: string)
    requires SysInv(s) && Enabled(s, ev) && !ev.Insert? && !ev.Poll? && !ev.Cancel? && !ev.Take? && !ev.CommitNext?
    requires p in s.core.entries && s.core.entries[p].status.Matched?
    ensures TogetherIn(s.core.entries, Step(s, lim, ev).core.entries, s.core.entries[p].members)
  {
    assert EntryOk(p, s.core, s.inFlight);
    assert Step(s, lim, ev).core.entries == s.core.entries;
  }

  lemma CommitTogether(s: Sys, t: nat, room: string, p: string)
    requires SysInv(s) && Enabled(s, CommitNext(t, room))
    requires p in s.core.entries && s.core.entries[p].status.Matched?
    ensures TogetherIn(s.core.entries, Commit(s.core, s.threads[t].groups[0], room, s.threads[t].now).entries,
                       s.core.entries[p].members)
  {
    var g := s.threads[t].groups[0];
    assert Holds(s.threads, t, 0, g.matchId);
    assert Held(g.matchId, s.inFlight[g.matchId], s.core);
    CommitLeavesMatched(s.core, s.inFlight, g, room, s.threads[t].now, p);
  }

  lemma TakeTogether(s: Core, fl: InFlight, ids: seq<string>, p: string)
    requires Inv(s, fl) && FreshIds(ids, s, fl) && p in s.entries && s.entries[p].status.Matched?
    ensures TogetherIn(s.entries, TakeAll(s, ids).core.entries, s.entries[p].members)
  {
    MatchedNotQueued(s, fl, p);
    TakeLeavesMatched(s, fl, ids);
  }

  lemma MatchedNotQueued(s: Core, fl: InFlight, p: string)
    requires Inv(s, fl) && p in s.entries && s.entries[p].status.Matched?
    ensures forall q :: q in s.entries[p].members ==> q in s.entries && q !in s.queue
  {
    assert EntryOk(p, s, fl);
  }

  lemma TakeOneLeavesMatched(s: Core, id: string)
    requires |s.queue| >= 2 && s.queue[0] in s.entries && s.queue[1] in s.entries
    ensures var t := TakeOne(s, id);
      && t.entries.Keys == s.entries.Keys
      && (forall p :: p in s.entries && p !in s.queue ==> p !in t.queue && t.entries[p] == s.entries[p])
      && (forall p :: p in s.entries ==>
            t.entries[p].cancelRequested == s.entries[p].cancelRequested && t.entries[p].status == s.entries[p].status)
  {
  }

  lemma {:induction false} TakeLeavesMatched(s: Core, fl: InFlight, ids: seq<string>)
    requires Inv(s, fl) && FreshIds(ids, s, fl)
    ensures forall p :: p in s.entries && p !in s.queue ==>
      p in TakeAll(s, ids).core.entries && TakeAll(s, ids).core.entries[p] == s.entries[p]
    ensures TakeAll(s, ids).core.entries.Keys == s.entries.Keys
    ensures forall p :: p in s.entries ==>
      && TakeAll(s, ids).core.entries[p].cancelRequested == s.entries[p].cancelRequested
      && TakeAll(s, ids).core.entries[p].status == s.entries[p].status
    decreases |s.queue|
  {
    if |s.queue| >= 2 && |ids| > 0 && ids[0] != "" {
      TakeOneKeepsInv(s, fl, ids[0]);
      var t := TakeOne(s, ids[0]);
      var fl' := fl[ids[0] := s.queue[..2]];
      FreshIdsTail(s, fl, ids);
      TakeLeavesMatched(t, fl', ids[1..]);
      TakeOneLeavesMatched(s, ids[0]);
    }
  }

  // ------------------------------------------------------------------ cancel intent

  /** Dropped, or still queued with the cancel on record. */
  ghost predicate StillCancelled(entries: map<string, Entry>, p: string) {
    p !in entries || (entries[p].cancelRequested && entries[p].status.Queued?)
  }

  lemma CommitHonoursCancel(s: Core, fl: InFlight, g: Group, room: string, now: int, p: string)
    requires Inv(s, fl) && Held(g.matchId, g.members, s)
    requires p in s.entries && s.entries[p].cancelRequested
    ensures StillCancelled(Commit(s, g, room, now).entries, p)
  {
    assert EntryOk(p, s, fl);
    if p in g.members {
      assert p in CancelledOf(s, g);
    }
  }

  lemma EnqueueHonoursCancel(s: Core, fl: InFlight, lim: Limits, p: string, q: string, r: string, now: int)
    requires Inv(s, fl) && p in s.entries && s.entries[p].cancelRequested
    ensures StillCancelled(EnqueueStep(s, q, r, now, lim).core.entries, p)
  {
    assert EntryOk(p, s, fl);
  }

  lemma CancelKeepsCancel(s: Core, fl: InFlight, lim: Limits, p: string, q: string, now: int)
    requires Inv(s, fl) && p in s.entries && s.entries[p].cancelRequested
    ensures StillCancelled(CancelStep(s, q, now, lim).core.entries, p)
  {
    assert EntryOk(p, s, fl);
  }

  /** A recorded cancel stays recorded, and its player unmatched, until the entry is dropped. */
  lemma CancelIntentSticks(s: Sys, lim: Limits, ev: Event, p: string)
    requires SysInv(s) && Enabled(s, ev)
    requires p in s.core.entries && s.core.entries[p].cancelRequested
    ensures StillCancelled(Step(s, lim, ev).core.entries, p)
  {
    assert EntryOk(p, s.core, s.inFlight);
    match ev
    case Take(t, ids) =>
      TakeLeavesMatched(s.core, s.inFlight, ids);
    case CommitNext(t, room) =>
      var g := s.threads[t].groups[0];
      assert Holds(s.threads, t, 0, g.matchId);
      assert Held(g.matchId, s.inFlight[g.matchId], s.core);
      CommitHonoursCancel(s.core, s.inFlight, g, room, s.threads[t].now, p);
    case Insert(t) =>
      var th := s.threads[t];
      EnqueueHonoursCancel(s.core, s.inFlight, lim, p, th.player, th.requestId, th.now);
    case Cancel(_, q, now) =>
      CancelKeepsCancel(s.core, s.inFlight, lim, p, q, now);
    case _ =>
  }

  /** The player keeps an entry through the whole run. */
  ghost predicate TrackedThroughout(s: Sys, lim: Limits, evs: seq<Event>, p: string)
    requires SysInv(s) && Legal(s, lim, evs)
    decreases |evs|
  {
    && p in s.core.entries
    && (evs == [] || (StepKeepsInv(s, lim, evs[0]); TrackedThroughout(Step(s, lim, evs[0]), lim, evs[1..], p)))
  }

  /** Once a cancel is recorded no continuation of the run matches the player, unless the entry
      disappears first (and the player enqueues again). */
  lemma {:induction false} CancelledNeverMatched(s: Sys, lim: Limits, evs: seq<Event>, p: string)
    requires SysInv(s) && Legal(s, lim, evs) && TrackedThroughout(s, lim, evs, p)
    requires s.core.entries[p].cancelRequested
    ensures StillCancelled(Run(s, lim, evs).core.entries, p)
    decreases |evs|
  {
    if evs == [] {
      assert EntryOk(p, s.core, s.inFlight);
    } else {
      StepKeepsInv(s, lim, evs[0]);
      CancelIntentSticks(s, lim, evs[0], p);
      CancelledNeverMatched(Step(s, lim, evs[0]), lim, evs[1..], p);
    }
  }

  // ------------------------------------------------------------------ no lost snapshot update

  /** In every run: if a snapshot taken now would differ from the last copy taken, then the dirty flag
      is set or some thread still has its MarkSnapshotDirty call ahead. */
  lemma NoLostUpdate(s0: Sys, lim: Limits, evs: seq<Event>)
    requires SysInv(s0) && Legal(s0, lim, evs)
    ensures var s := Run(s0, lim, evs);
      && QueueOk(s.core)
      && (ImageOf(s.core) != s.copied && !s.dirty ==> exists t :: t in s.threads && Owes(s.threads[t]))
  {
    RunKeepsInv(s0, lim, evs);
  }

  /** With all request threads idle, one flush whose save is carried out stores the current state, even when
      the dirty flag was clear and the flush therefore wrote nothing. */
  lemma IdleFlushStoresCurrentState(s0: Sys, lim: Limits, evs: seq<Event>)
    requires SysInv(s0) && Legal(s0, lim, evs)
    requires var s := Run(s0, lim, evs); s.threads == map[] && s.saving.None?
    ensures var s := Run(s0, lim, evs);
      && SysInv(s)
      && var c := Step(s, lim, Capture);
         && c.copied == ImageOf(s.core) == ImageOf(c.core)
         && !c.dirty
         && (s.dirty ==> SysInv(c) && Enabled(c, Save(true)) && Step(c, lim, Save(true)).stored == ImageOf(s.core))
         && (!s.dirty ==> c == s)
  {
    RunKeepsInv(s0, lim, evs);
    StepKeepsInv(Run(s0, lim, evs), lim, Capture);
  }

  // ------------------------------------------------------------------ the allocation worker

  predicate UsesWorker(ev: Event) {
    ev.Refuse? || ev.SeeBusy? || ev.HandOff? || ev.Pop?
  }

  /** The worker counts as busy only while groups wait in its queue, and only a busy worker is given any:
      in every run from a start no request finds it busy, no group is handed to it, it never begins with
      one, and no round is refused for too many rooms pending. */
  lemma {:induction false} WorkerIsNeverUsed(s: Sys, lim: Limits, evs: seq<Event>)
    requires SysInv(s) && Legal(s, lim, evs) && s.handed == [] && s.sawBusy == {}
    ensures Run(s, lim, evs).handed == [] && Run(s, lim, evs).sawBusy == {}
    ensures forall i :: 0 <= i < |evs| ==> !UsesWorker(evs[i])
    decreases |evs|
  {
    if evs != [] {
      StepKeepsInv(s, lim, evs[0]);
      WorkerIsNeverUsed(Step(s, lim, evs[0]), lim, evs[1..]);
    }
  }
}
