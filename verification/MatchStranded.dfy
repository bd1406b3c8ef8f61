/** When players are left in the queue with no thread about to pair them, and what becomes of them. */
module MatchStranded {
  import opened Wrappers
  import opened Seqs
  import opened MatchCore
  import opened MatchSnapshot
  import opened MatchRestart
  import opened MatchProtocol
  import opened MatchRounds

  /** The thread will run phase one: it has a player to insert, or is at phase one, or is about to find
      the retry flag set. */
  predicate WillPair(th: Thread, retry: bool) {
    th.Gated? || th.PhaseOne? || (th.Polled? && retry)
  }

  /** No pairing round is to come, and no poll would start one. */
  ghost predicate Quiet(s: Sys) {
    !s.core.retry && forall t :: t in s.threads ==> !WillPair(s.threads[t], s.core.retry)
  }

  ghost predicate Stranded(s: Sys) {
    |s.core.queue| >= 2 && Quiet(s)
  }

  // ------------------------------------------------------------------ how it comes about

  ghost predicate OthersQuiet(s: Sys, t: nat) {
    forall u :: u in s.threads && u != t ==> !s.threads[u].Gated? && !s.threads[u].PhaseOne?
  }

  /** The ids the factory gives out before it fails. */
  function Answers(ids: seq<string>): nat {
    if ids == [] || ids[0] == "" then 0 else 1 + Answers(ids[1..])
  }

  /** The steps that strand players: the last round under way that gets fewer ids than there are pairs, or
      is refused, and a group given up for a cancel that joins a single waiting player. */
  ghost predicate Strands(s: Sys, ev: Event)
    requires Enabled(s, ev)
  {
    match ev
    case Take(t, ids) => !s.core.retry && OthersQuiet(s, t) && |s.core.queue| >= 2 * Answers(ids) + 2
    case Refuse(t) => !s.core.retry && OthersQuiet(s, t) && |s.core.queue| >= 2
    case CommitNext(t, room) =>
      && !s.core.retry && OthersQuiet(s, t) && room != "" && |s.core.queue| == 1
      && OneCancelled(s.core, s.threads[t].groups[0])
    case _ => false
  }

  lemma {:induction false} TakeAllLeaves(s: Core, ids: seq<string>)
    requires forall p :: p in s.queue ==> p in s.entries
    ensures var r := TakeAll(s, ids);
      && (|r.core.queue| >= 2 <==> |s.queue| >= 2 * Answers(ids) + 2)
      && r.core.retry == s.retry
      && (r.groups == [] ==> r.core == s)
    decreases |s.queue|
  {
    if |s.queue| >= 2 && |ids| > 0 && ids[0] != "" {
      TakeAllLeaves(TakeOne(s, ids[0]), ids[1..]);
    }
  }

  lemma TakeStrandsIff(s: Sys, lim: Limits, t: nat, ids: seq<string>)
    requires SysInv(s) && Enabled(s, Take(t, ids))
    ensures Stranded(Step(s, lim, Take(t, ids))) <==> Strands(s, Take(t, ids))
  {
    TakeAllLeaves(s.core, ids);
    ThreadsAfter(s, Step(s, lim, Take(t, ids)), t);
  }

  lemma CommitStrandsIff(s: Sys, lim: Limits, t: nat, room: string)
    requires SysInv(s) && Enabled(s, CommitNext(t, room)) && !Stranded(s)
    ensures Stranded(Step(s, lim, CommitNext(t, room))) <==> Strands(s, CommitNext(t, room))
  {
    var g := s.threads[t].groups[0];
    assert Holds(s.threads, t, 0, g.matchId);
    assert Held(g.matchId, g.members, s.core);
    CommitStrandsPairIff(s.core, s.inFlight, g, room, s.threads[t].now);
    CommitKeepsRetry(s.core, g, room, s.threads[t].now);
    ThreadsAfter(s, Step(s, lim, CommitNext(t, room)), t);
  }

  lemma CommitKeepsRetry(s: Core, g: Group, room: string, now: int)
    ensures s.retry ==> Commit(s, g, room, now).retry
    ensures |Commit(s, g, room, now).queue| >= |s.queue|
  {
  }

  /** `t` goes on as something that pairs nobody. */
  lemma ThreadsAfter(s: Sys, q: Sys, t: nat)
    requires t in s.threads && (t in q.threads ==> q.threads[t].OwesMark? || q.threads[t].Allocating?)
    requires forall u :: u != t ==>
      (u in q.threads <==> u in s.threads) && (u in q.threads ==> q.threads[u] == s.threads[u])
    ensures !q.core.retry ==>
      ((forall u :: u in q.threads ==> !WillPair(q.threads[u], q.core.retry)) <==> OthersQuiet(s, t))
  {
  }

  /** A section that only removes players from the queue, for a request that had not begun. */
  lemma ShrinkingStrandsNobody(s: Sys, q: Sys, t: nat)
    requires Stranded(q) && t !in s.threads && q.core.retry == s.core.retry && |q.core.queue| <= |s.core.queue|
    requires forall u :: u in s.threads ==> u in q.threads && q.threads[u] == s.threads[u]
    ensures Stranded(s)
  {
    forall u | u in s.threads ensures !WillPair(s.threads[u], s.core.retry) {
      assert !WillPair(q.threads[u], q.core.retry);
    }
  }

  lemma SweepingStrandsNobody(s: Sys, lim: Limits, ev: Event)
    requires SysInv(s) && Enabled(s, ev) && (ev.Poll? || ev.Cancel?)
    requires Stranded(Step(s, lim, ev))
    ensures Stranded(s)
  {
    ShrinkingStrandsNobody(s, Step(s, lim, ev), ev.t);
  }

  lemma OthersStrandNobody(s: Sys, lim: Limits, ev: Event)
    requires SysInv(s) && Enabled(s, ev) && !ev.Take? && !ev.Refuse? && !ev.CommitNext? && !ev.Poll? && !ev.Cancel?
    requires Stranded(Step(s, lim, ev))
    ensures Stranded(s)
  {
    var q := Step(s, lim, ev);
    match ev
    case Gate(t, _, _, _) => assert !s.closed ==> WillPair(q.threads[t], false);
    case Insert(t) => assert WillPair(q.threads[t], false);
    case Retry(t) =>
      assert s.core.retry ==> WillPair(q.threads[t], false);
      assert forall u :: u in s.threads && u != t ==> u in q.threads && q.threads[u] == s.threads[u];
    case HandOff(t, task) =>
      assert forall u :: u in s.threads && u != t ==> u in q.threads && q.threads[u] == s.threads[u];
    case Mark(t) =>
      assert forall u :: u in s.threads && u != t ==> u in q.threads && q.threads[u] == s.threads[u];
    case _ =>
  }

  /** A step leaves players stranded who were not before exactly if it is one of those. */
  lemma StrandedIff(s: Sys, lim: Limits, ev: Event)
    requires SysInv(s) && Enabled(s, ev) && !Stranded(s)
    ensures Stranded(Step(s, lim, ev)) <==> Strands(s, ev)
  {
    match ev
    case Take(t, ids) => TakeStrandsIff(s, lim, t, ids);
    case Refuse(t) => ThreadsAfter(s, Step(s, lim, ev), t);
    case CommitNext(t, room) => CommitStrandsIff(s, lim, t, room);
    case _ =>
      if Stranded(Step(s, lim, ev)) {
        if ev.Poll? || ev.Cancel? {
          SweepingStrandsNobody(s, lim, ev);
        } else {
          OthersStrandNobody(s, lim, ev);
        }
      }
  }

  // ------------------------------------------------------------------ what becomes of them

  /** No new request to enqueue, and no allocation that fails. */
  predicate Calm(ev: Event) {
    !ev.Gate? && !(ev.CommitNext? && ev.room == "")
  }

  /** Still waiting as before, or timed out, or gone. */
  predicate NotPaired(p: string, e: Entry, c: Core) {
    if p in c.entries then (p in c.queue && c.entries[p] == e) || c.entries[p].status.TimedOut? else true
  }

  lemma SweepPairsNobody(p: string, e: Entry, c: Core, now: int, lim: Limits)
    requires QueueOk(c) && NotPaired(p, e, c)
    ensures NotPaired(p, e, Sweep(c, now, lim))
  {
  }

  lemma CancelPairsNobody(p: string, e: Entry, c: Core, fl: InFlight, q: string, now: int, lim: Limits)
    requires Inv(c, fl) && NotPaired(p, e, c)
    ensures NotPaired(p, e, CancelStep(c, q, now, lim).core)
  {
    SweepPairsNobody(p, e, c, now, lim);
    SweepKeepsInv(c, fl, now, lim);
    var u := Sweep(c, now, lim);
    if p in u.entries {
      assert EntryOk(p, u, fl);
    }
  }

  lemma CommitPairsNobodyElse(p: string, e: Entry, c: Core, g: Group, room: string, now: int)
    requires QueueOk(c) && Held(g.matchId, g.members, c) && NotPaired(p, e, c)
    ensures NotPaired(p, e, Commit(c, g, room, now))
  {
  }

  lemma QuietStep(s: Sys, lim: Limits, ev: Event, p: string, e: Entry)
    requires SysInv(s) && Enabled(s, ev) && Quiet(s) && Calm(ev) && NotPaired(p, e, s.core)
    ensures !ev.Take? && Quiet(Step(s, lim, ev)) && NotPaired(p, e, Step(s, lim, ev).core)
  {
    match ev
    case Poll(_, now) => SweepPairsNobody(p, e, s.core, now, lim);
    case Cancel(_, q, now) => CancelPairsNobody(p, e, s.core, s.inFlight, q, now, lim);
    case CommitNext(t, room) =>
      var g := s.threads[t].groups[0];
      assert Holds(s.threads, t, 0, g.matchId);
      assert Held(g.matchId, g.members, s.core);
      CommitPairsNobodyElse(p, e, s.core, g, room, s.threads[t].now);
    case _ =>
  }

  /** With nobody about to pair, and until somebody enqueues or an allocation fails: no round starts,
      and whoever waits is never paired, however often anybody polls. */
  lemma {:induction false} NobodyPairsThem(s: Sys, lim: Limits, evs: seq<Event>, p: string, e: Entry)
    requires SysInv(s) && Legal(s, lim, evs) && Quiet(s) && NotPaired(p, e, s.core)
    requires forall i :: 0 <= i < |evs| ==> Calm(evs[i])
    ensures Quiet(Run(s, lim, evs)) && NotPaired(p, e, Run(s, lim, evs).core)
    ensures forall i :: 0 <= i < |evs| ==> !evs[i].Take?
    decreases |evs|
  {
    if evs != [] {
      StepKeepsInv(s, lim, evs[0]);
      QuietStep(s, lim, evs[0], p, e);
      NobodyPairsThem(Step(s, lim, evs[0]), lim, evs[1..], p, e);
    }
  }

  /** The same for all stranded players. */
  lemma StrandedPlayersWait(s: Sys, lim: Limits, evs: seq<Event>)
    requires SysInv(s) && Legal(s, lim, evs) && Stranded(s)
    requires forall i :: 0 <= i < |evs| ==> Calm(evs[i])
    ensures forall p :: p in s.core.queue ==> NotPaired(p, s.core.entries[p], Run(s, lim, evs).core)
    ensures forall i :: 0 <= i < |evs| ==> !evs[i].Take?
  {
    forall p | p in s.core.queue ensures NotPaired(p, s.core.entries[p], Run(s, lim, evs).core) {
      NobodyPairsThem(s, lim, evs, p, s.core.entries[p]);
    }
    assert s.core.queue[0] in s.core.queue;
    NobodyPairsThem(s, lim, evs, s.core.queue[0], s.core.entries[s.core.queue[0]]);
  }

  // ------------------------------------------------------------------ after a restart

  lemma {:induction false} PlayersLength(xs: seq<QueuedAt>)
    ensures |Players(xs)| == |xs|
  {
    if xs != [] {
      PlayersLength(xs[1..]);
    }
  }

  /** A process restarted from a snapshot begins with its players stranded exactly if two or more of
      those queued or being paired have not waited too long by then. */
  lemma RestartStrandsIff(c: Core, fl: InFlight, snap: Snapshot, now: int, lim: Limits, s: Sys)
    requires Inv(c, fl) && IsSnapshotOf(snap, c)
    requires Start(s) && s.core == Restore(EmptyCore, snap, 0, now, lim).core
    ensures Stranded(s) <==> |InTime(StableSort(snap.queued), now, lim)| >= 2
  {
    RestartSimulation(c, fl, snap, now, lim);
    PlayersLength(Kept(snap, now, lim));
  }
}
