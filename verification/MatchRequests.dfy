/** What starts a pairing round and what lets a player in, over whole runs: polls pair only after failures,
    and nobody comes in once the queue shuts down. */
module MatchRequests {
  import opened Wrappers
  import opened Seqs
  import opened MatchCore
  import opened MatchProtocol
  import opened MatchTheorems
  import opened MatchRounds
  import opened MatchOutcomes

  // ------------------------------------------------------------------ what the sections add

  /** Nobody new is tracked, and whether a retry is pending stays as it is. */
  predicate AddsNobody(s: Core, c: Core) {
    c.entries.Keys <= s.entries.Keys && c.retry == s.retry
  }

  lemma SweepAdds(s: Core, now: int, lim: Limits)
    ensures AddsNobody(s, Sweep(s, now, lim))
  {
  }

  lemma CancelAdds(s: Core, p: string, now: int, lim: Limits)
    ensures AddsNobody(s, CancelStep(s, p, now, lim).core)
  {
    SweepAdds(s, now, lim);
  }

  lemma EnqueueAdds(s: Core, p: string, r: string, now: int, lim: Limits)
    ensures var c := EnqueueStep(s, p, r, now, lim).core;
      c.entries.Keys <= s.entries.Keys + {p} && c.retry == s.retry
  {
    SweepAdds(s, now, lim);
  }

  lemma TakeAdds(s: Core, fl: InFlight, ids: seq<string>)
    requires Inv(s, fl) && FreshIds(ids, s, fl)
    ensures AddsNobody(s, TakeAll(s, ids).core)
  {
    TakesPairsInOrder(s, fl, ids);
    TakeLeavesMatched(s, fl, ids);
  }

  lemma CommitAdds(s: Core, g: Group, room: string, now: int)
    requires Held(g.matchId, g.members, s)
    ensures var c := Commit(s, g, room, now);
      c.entries.Keys <= s.entries.Keys && c.retry == (s.retry || room == "")
  {
    if room != "" && forall p :: p in g.members ==> !s.entries[p].cancelRequested {
      CommitMatches(s, g, room, now);
    } else {
      CommitReturns(s, g, room, now);
    }
  }

  // ------------------------------------------------------------------ rounds started by polls

  /** A poll takes the retry flag and goes on to pair. */
  predicate PollPairs(s: Sys, ev: Event) {
    ev.Retry? && s.core.retry
  }

  predicate AllocationFails(ev: Event) {
    ev.CommitNext? && ev.room == ""
  }

  lemma StepRetry(s: Sys, lim: Limits, ev: Event)
    requires SysInv(s) && Enabled(s, ev)
    ensures Step(s, lim, ev).core.retry == (AllocationFails(ev) || (s.core.retry && !ev.Retry?))
  {
    match ev
    case Insert(t) =>
      var th := s.threads[t];
      EnqueueAdds(s.core, th.player, th.requestId, th.now, lim);
    case Poll(_, now) => SweepAdds(s.core, now, lim);
    case Take(t, ids) => TakeAdds(s.core, s.inFlight, ids);
    case CommitNext(t, room) =>
      GroupIsHeld(s, t);
      CommitAdds(s.core, s.threads[t].groups[0], room, s.threads[t].now);
    case Cancel(_, p, now) => CancelAdds(s.core, p, now, lim);
    case _ =>
  }

  function Failures(evs: seq<Event>): nat {
    if evs == [] then 0 else (if AllocationFails(evs[0]) then 1 else 0) + Failures(evs[1..])
  }

  ghost function PollRounds(s: Sys, lim: Limits, evs: seq<Event>): nat
    requires SysInv(s) && Legal(s, lim, evs)
    decreases |evs|
  {
    if evs == [] then 0
    else (StepKeepsInv(s, lim, evs[0]);
          (if PollPairs(s, evs[0]) then 1 else 0) + PollRounds(Step(s, lim, evs[0]), lim, evs[1..]))
  }

  /** However often players poll: a poll starts a pairing round only for a failed allocation, and each failed
      allocation lets at most one poll do so. */
  lemma {:induction false} PollsPairOnlyAfterFailures(s: Sys, lim: Limits, evs: seq<Event>)
    requires SysInv(s) && Legal(s, lim, evs)
    ensures PollRounds(s, lim, evs) + (if Run(s, lim, evs).core.retry then 1 else 0)
      <= Failures(evs) + if s.core.retry then 1 else 0
    decreases |evs|
  {
    if evs != [] {
      StepKeepsInv(s, lim, evs[0]);
      StepRetry(s, lim, evs[0]);
      PollsPairOnlyAfterFailures(Step(s, lim, evs[0]), lim, evs[1..]);
    }
  }

  // ------------------------------------------------------------------ shutting down

  /** A request of `p` has passed the first check and not yet reached the queue. */
  ghost predicate PassedGate(s: Sys, p: string) {
    exists t :: t in s.threads && s.threads[t].Gated? && s.threads[t].player == p
  }

  lemma StepTracks(s: Sys, lim: Limits, ev: Event, p: string)
    requires SysInv(s) && Enabled(s, ev) && p in Step(s, lim, ev).core.entries
    ensures p in s.core.entries || PassedGate(s, p)
  {
    match ev
    case Insert(t) =>
      var th := s.threads[t];
      EnqueueAdds(s.core, th.player, th.requestId, th.now, lim);
    case Poll(_, now) => SweepAdds(s.core, now, lim);
    case Take(t, ids) => TakeAdds(s.core, s.inFlight, ids);
    case CommitNext(t, room) =>
      GroupIsHeld(s, t);
      CommitAdds(s.core, s.threads[t].groups[0], room, s.threads[t].now);
    case Cancel(_, q, now) => CancelAdds(s.core, q, now, lim);
    case _ =>
  }

  lemma ClosedGate(s: Sys, lim: Limits, ev: Event, p: string)
    requires SysInv(s) && Enabled(s, ev) && s.closed
    ensures Step(s, lim, ev).closed
    ensures PassedGate(Step(s, lim, ev), p) ==> PassedGate(s, p)
  {
    if PassedGate(Step(s, lim, ev), p) {
      var q := Step(s, lim, ev);
      var t :| t in q.threads && q.threads[t].Gated? && q.threads[t].player == p;
      assert t in s.threads && s.threads[t] == q.threads[t];
    }
  }

  lemma {:induction false} ClosedRun(s: Sys, lim: Limits, evs: seq<Event>, p: string)
    requires SysInv(s) && Legal(s, lim, evs) && s.closed && p in Run(s, lim, evs).core.entries
    ensures p in s.core.entries || PassedGate(s, p)
    decreases |evs|
  {
    if evs != [] {
      StepKeepsInv(s, lim, evs[0]);
      ClosedGate(s, lim, evs[0], p);
      ClosedRun(Step(s, lim, evs[0]), lim, evs[1..], p);
      if p in Step(s, lim, evs[0]).core.entries {
        StepTracks(s, lim, evs[0], p);
      }
    }
  }

  /** Once it shuts down, whatever happens, the queue tracks only players it tracked already and those whose
      request had passed the first check. */
  lemma ShutdownAdmitsNobody(s: Sys, lim: Limits, evs: seq<Event>, p: string)
    requires SysInv(s) && (StepKeepsInv(s, lim, Close); Legal(Step(s, lim, Close), lim, evs))
    requires p in (StepKeepsInv(s, lim, Close); Run(Step(s, lim, Close), lim, evs)).core.entries
    ensures p in s.core.entries || PassedGate(s, p)
  {
    StepKeepsInv(s, lim, Close);
    var q := Step(s, lim, Close);
    ClosedRun(q, lim, evs, p);
    if PassedGate(q, p) {
      var t :| t in q.threads && q.threads[t].Gated? && q.threads[t].player == p;
      assert t in s.threads && s.threads[t] == q.threads[t];
    }
  }
}
