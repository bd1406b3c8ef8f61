/** Any number of request threads over one match queue, interleaved at the granularity of its lock.

    A run is a list of events, each one critical section (or one answer from outside the lock) of
    one thread. The id factory, the room allocator and the snapshot store answer freely. */
module MatchProtocol {
  import opened Wrappers
  import opened Seqs
  import opened MatchCore
  import opened MatchSnapshot

  // ------------------------------------------------------------------ threads and events

  /** Where a request thread stands between two critical sections. */
  datatype Thread =
    | Gated(player: string, requestId: string, now: int)  // Enqueue, past the shutdown test
    | Polled(now: int, changed: bool)                     // GetStatus, before the lazy retry
    | PhaseOne(now: int, changed: bool)                   // about to take groups from the queue
    | Allocating(groups: seq<Group>, now: int)            // groups taken and not yet committed; also the worker's tasks
    | OwesMark                                            // MarkSnapshotDirty is its next call

  datatype Sys = Sys(
    core: Core,
    inFlight: InFlight,
    threads: map<nat, Thread>,
    dirty: bool,
    copied: Image,           // the copy the flusher took last
    saving: Option<Image>,   // a copy taken and not yet handed to the store
    stored: Image,           // what the store holds
    closed: bool,
    handed: seq<nat>,        // the worker's queue: groups handed to it are threads of their own
    sawBusy: set<nat>)       // requests that found the worker busy and will hand it their groups

  datatype Event =
    | Gate(t: nat, player: string, requestId: string, now: int)
    | Insert(t: nat)
    | Poll(t: nat, now: int)
    | Retry(t: nat)
    | Take(t: nat, ids: seq<string>)
    | CommitNext(t: nat, room: string)
    | Refuse(t: nat)                                      // too many rooms pending: nobody is taken
    | SeeBusy(t: nat)                                     // the worker has groups waiting
    | HandOff(t: nat, task: nat)                          // one group goes to the worker's queue
    | Pop                                                 // the worker begins with the oldest
    | Mark(t: nat)
    | Cancel(t: nat, player: string, now: int)
    | Capture
    | Save(carriedOut: bool)                              // whatever the store reports: the queue only counts it
    | Close

  predicate Idle(s: Sys, t: nat) {
    t !in s.threads
  }

  ghost predicate Enabled(s: Sys, ev: Event) {
    match ev
    case Gate(t, p, r, _) => Idle(s, t) && ValidId(p) && ValidId(r)
    case Insert(t) => t in s.threads && s.threads[t].Gated?
    case Poll(t, _) => Idle(s, t)
    case Retry(t) => t in s.threads && s.threads[t].Polled?
    case Take(t, ids) => t in s.threads && s.threads[t].PhaseOne? && FreshIds(ids, s.core, s.inFlight)
    case CommitNext(t, _) =>
      && t in s.threads && s.threads[t].Allocating? && s.threads[t].groups != []
      && t !in s.handed && t !in s.sawBusy
    case Refuse(t) => t in s.threads && s.threads[t].PhaseOne? && |s.handed| >= MAX_PENDING_ALLOCATIONS
    case SeeBusy(t) => t in s.threads && s.threads[t].Allocating? && s.handed != []
    case HandOff(t, task) =>
      && t in s.threads && s.threads[t].Allocating? && s.threads[t].groups != []
      && t in s.sawBusy && Idle(s, task)
    case Pop => s.handed != []
    case Mark(t) => t in s.threads && s.threads[t].OwesMark?
    case Cancel(t, _, _) => Idle(s, t)
    case Capture => s.saving.None?
    case Save(_) => s.saving.Some?
    case Close => true
  }

  /** The request returns, marking the snapshot dirty first if it changed anything. */
  function Leave(threads: map<nat, Thread>, t: nat, changed: bool): map<nat, Thread> {
    if changed then threads[t := OwesMark] else threads - {t}
  }

  /** A thread that is done with its first group. */
  function NextGroup(th: Thread): Thread
    requires th.Allocating? && th.groups != []
  {
    if |th.groups| == 1 then OwesMark else Allocating(th.groups[1..], th.now)
  }

  ghost function Step(s: Sys, lim: Limits, ev: Event): Sys
    requires Enabled(s, ev) && SysInv(s)
  {
    match ev
    case Gate(t, p, r, now) =>
      if s.closed then s else s.(threads := s.threads[t := Gated(p, r, now)])
    case Insert(t) =>
      var th := s.threads[t];
      var r := EnqueueStep(s.core, th.player, th.requestId, th.now, lim);
      s.(core := r.core, threads := s.threads[t := PhaseOne(th.now, r.changed)])
    case Poll(t, now) =>
      var c := Sweep(s.core, now, lim);
      s.(core := c, threads := s.threads[t := Polled(now, c != s.core)])
    case Retry(t) =>
      var th := s.threads[t];
      if s.core.retry then
        s.(core := s.core.(retry := false), threads := s.threads[t := PhaseOne(th.now, th.changed)])
      else s.(threads := Leave(s.threads, t, th.changed))
    case Take(t, ids) =>
      var th := s.threads[t];
      var r := TakeAll(s.core, ids);
      if r.groups == [] then s.(threads := Leave(s.threads, t, th.changed))
      else s.(core := r.core, inFlight := Tracked(s.inFlight, r.groups),
              threads := s.threads[t := Allocating(r.groups, th.now)])
    case CommitNext(t, room) =>
      var th := s.threads[t];
      var g := th.groups[0];
      assert Holds(s.threads, t, 0, g.matchId);
      assert Held(g.matchId, g.members, s.core);
      s.(core := Commit(s.core, g, room, th.now), inFlight := s.inFlight - {g.matchId},
         threads := s.threads[t := NextGroup(th)])
    case Refuse(t) => s.(threads := Leave(s.threads, t, s.threads[t].changed))
    case SeeBusy(t) => s.(sawBusy := s.sawBusy + {t})
    case HandOff(t, task) =>
      var th := s.threads[t];
      s.(threads := s.threads[t := NextGroup(th)][task := Allocating([th.groups[0]], th.now)],
         handed := s.handed + [task],
         sawBusy := if |th.groups| == 1 then s.sawBusy - {t} else s.sawBusy)
    case Pop => s.(handed := s.handed[1..])
    case Mark(t) => s.(dirty := true, threads := s.threads - {t})
    case Cancel(t, p, now) =>
      var r := CancelStep(s.core, p, now, lim);
      s.(core := r.core, threads := Leave(s.threads, t, r.changed))
    case Capture =>
      if s.dirty then s.(dirty := false, copied := ImageOf(s.core), saving := Some(ImageOf(s.core))) else s
    case Save(carriedOut) => s.(saving := None, stored := if carriedOut then s.saving.value else s.stored)
    case Close => s.(closed := true)
  }

  ghost predicate Legal(s: Sys, lim: Limits, evs: seq<Event>)
    requires SysInv(s)
    decreases |evs|
  {
    evs == [] ||
    (Enabled(s, evs[0]) && (StepKeepsInv(s, lim, evs[0]); Legal(Step(s, lim, evs[0]), lim, evs[1..])))
  }

  ghost function Run(s: Sys, lim: Limits, evs: seq<Event>): Sys
    requires SysInv(s) && Legal(s, lim, evs)
    decreases |evs|
  {
    if evs == [] then s
    else (StepKeepsInv(s, lim, evs[0]); Run(Step(s, lim, evs[0]), lim, evs[1..]))
  }

  // ------------------------------------------------------------------ the invariant

  ghost predicate Holds(threads: map<nat, Thread>, t: nat, i: int, m: string) {
    && t in threads
    && threads[t].Allocating?
    && 0 <= i < |threads[t].groups|
    && threads[t].groups[i].matchId == m
  }

  /** Every group being allocated belongs to one position of one thread, and to no other. */
  ghost predicate HoldersOk(threads: map<nat, Thread>, fl: InFlight) {
    && (forall t, i, m :: Holds(threads, t, i, m) ==> m in fl && fl[m] == threads[t].groups[i].members)
    && (forall t, i, u, j, m :: Holds(threads, t, i, m) && Holds(threads, u, j, m) ==> t == u && i == j)
    && (forall m :: m in fl ==> exists t, i :: Holds(threads, t, i, m))
  }

  /** The thread will still call MarkSnapshotDirty whatever happens next. */
  predicate Owes(th: Thread) {
    match th
    case Gated(_, _, _) => false
    case Polled(_, changed) => changed
    case PhaseOne(_, changed) => changed
    case Allocating(_, _) => true
    case OwesMark => true
  }

  ghost predicate DirtyOk(s: Sys)
    requires QueueOk(s.core)
  {
    s.dirty || ImageOf(s.core) == s.copied || exists t :: t in s.threads && Owes(s.threads[t])
  }

  ghost predicate SysInv(s: Sys) {
    && Inv(s.core, s.inFlight)
    && HoldersOk(s.threads, s.inFlight)
    && (forall t :: t in s.threads && s.threads[t].Allocating? ==> s.threads[t].groups != [])
    && DirtyOk(s)
    && (s.saving.Some? ==> s.saving.value == s.copied)
  }

  /** A process that has just started: nothing in flight, and memory is what the last copy says. */
  ghost predicate Start(s: Sys) {
    && Inv(s.core, map[])
    && s.inFlight == map[]
    && s.threads == map[]
    && s.copied == ImageOf(s.core)
    && s.saving.None?
    && s.handed == [] && s.sawBusy == {}
  }

  // ------------------------------------------------------------------ every step keeps it

  lemma TakeKeepsHolders(s: Sys, t: nat, ids: seq<string>)
    requires Inv(s.core, s.inFlight) && HoldersOk(s.threads, s.inFlight) && Enabled(s, Take(t, ids))
    requires TakeAll(s.core, ids).groups != []
    ensures var gs := TakeAll(s.core, ids).groups;
      HoldersOk(s.threads[t := Allocating(gs, s.threads[t].now)], Tracked(s.inFlight, gs))
  {
    var gs := TakeAll(s.core, ids).groups;
    TakenIdsFresh(s.core, s.inFlight, ids);
    TrackedContents(s.inFlight, gs);
    AddKeepsHolders(s, t, gs, s.threads[t].now, Tracked(s.inFlight, gs));
  }

  lemma AddKeepsHolders(s: Sys, t: nat, gs: seq<Group>, now: int, fl: InFlight)
    requires HoldersOk(s.threads, s.inFlight) && t in s.threads && !s.threads[t].Allocating?
    requires DistinctIds(gs)
    requires forall i :: 0 <= i < |gs| ==>
      gs[i].matchId !in s.inFlight && gs[i].matchId in fl && fl[gs[i].matchId] == gs[i].members
    requires forall m :: m in s.inFlight ==> m in fl && fl[m] == s.inFlight[m]
    requires forall m :: m in fl ==> m in s.inFlight || exists i :: 0 <= i < |gs| && gs[i].matchId == m
    ensures HoldersOk(s.threads[t := Allocating(gs, now)], fl)
  {
    var threads := s.threads[t := Allocating(gs, now)];
    forall u, j, m | Holds(threads, u, j, m)
      ensures u != t ==> Holds(s.threads, u, j, m)
      ensures m in fl && fl[m] == threads[u].groups[j].members
    {
      if u != t {
        assert Holds(s.threads, u, j, m);
      }
    }
    forall m | m in fl ensures exists u, j :: Holds(threads, u, j, m) {
      if m in s.inFlight {
        var u, j :| Holds(s.threads, u, j, m);
        assert Holds(threads, u, j, m);
      } else {
        var i :| 0 <= i < |gs| && gs[i].matchId == m;
        assert Holds(threads, t, i, m);
      }
    }
  }

  lemma CommitKeepsHolders(s: Sys, t: nat, th': Thread)
    requires HoldersOk(s.threads, s.inFlight) && t in s.threads && s.threads[t].Allocating? && s.threads[t].groups != []
    requires th' == NextGroup(s.threads[t])
    ensures HoldersOk(s.threads[t := th'], s.inFlight - {s.threads[t].groups[0].matchId})
  {
    var gone := s.threads[t].groups[0].matchId;
    assert Holds(s.threads, t, 0, gone);
    var threads := s.threads[t := th'];
    var fl := s.inFlight - {gone};
    forall u, j, m | Holds(threads, u, j, m)
      ensures Holds(s.threads, u, if u == t then j + 1 else j, m)
      ensures m in fl && fl[m] == threads[u].groups[j].members
    {
      assert Holds(s.threads, u, if u == t then j + 1 else j, m);
    }
    forall m | m in fl ensures exists u, j :: Holds(threads, u, j, m) {
      var u, j :| Holds(s.threads, u, j, m);
      assert Holds(threads, u, if u == t then j - 1 else j, m);
    }
  }

  /** The first group of `t` moves to the task. */
  lemma HandOffKeepsHolders(s: Sys, t: nat, task: nat)
    requires HoldersOk(s.threads, s.inFlight) && Enabled(s, HandOff(t, task))
    ensures var th := s.threads[t];
      HoldersOk(s.threads[t := NextGroup(th)][task := Allocating([th.groups[0]], th.now)], s.inFlight)
  {
    var th := s.threads[t];
    var threads := s.threads[t := NextGroup(th)][task := Allocating([th.groups[0]], th.now)];
    forall u: nat, j: int, m: string | Holds(threads, u, j, m)
      ensures Holds(s.threads, if u == task then t else u, if u == t then j + 1 else j, m)
      ensures m in s.inFlight && s.inFlight[m] == threads[u].groups[j].members
    {
      assert Holds(s.threads, if u == task then t else u, if u == t then j + 1 else j, m);
    }
    forall m | m in s.inFlight ensures exists u, j :: Holds(threads, u, j, m) {
      var u, j :| Holds(s.threads, u, j, m);
      assert if u == t then (if j == 0 then Holds(threads, task, 0, m) else Holds(threads, t, j - 1, m))
             else Holds(threads, u, j, m);
    }
  }

  /** Replacing a thread that holds no group by another that holds none. */
  lemma OtherThreadsKeepHolders(s: Sys, t: nat, threads: map<nat, Thread>)
    requires HoldersOk(s.threads, s.inFlight)
    requires t in s.threads ==> !s.threads[t].Allocating?
    requires t in threads ==> !threads[t].Allocating?
    requires forall u :: u != t ==> (u in threads <==> u in s.threads) && (u in threads ==> threads[u] == s.threads[u])
    ensures HoldersOk(threads, s.inFlight)
  {
    forall u, j, m ensures Holds(threads, u, j, m) <==> Holds(s.threads, u, j, m) {
    }
    forall m | m in s.inFlight ensures exists u, j :: Holds(threads, u, j, m) {
      var u, j :| Holds(s.threads, u, j, m);
      assert Holds(threads, u, j, m);
    }
  }

  /** A section that changed the state left a thread owing a mark; one that did not kept the image. */
  lemma DirtyAfter(s: Sys, s': Sys, t: nat)
    requires QueueOk(s.core) && QueueOk(s'.core) && DirtyOk(s)
    requires s'.dirty == s.dirty && s'.copied == s.copied
    requires forall u :: u in s.threads && u != t ==> u in s'.threads && s'.threads[u] == s.threads[u]
    requires (t in s'.threads && Owes(s'.threads[t]))
      || (ImageOf(s'.core) == ImageOf(s.core) && !(t in s.threads && Owes(s.threads[t])))
    ensures DirtyOk(s')
  {
    if !s.dirty && ImageOf(s.core) != s.copied {
      var u :| u in s.threads && Owes(s.threads[u]);
      if u != t {
        assert Owes(s'.threads[u]);
      }
    }
  }

  lemma StepKeepsInv(s: Sys, lim: Limits, ev: Event)
    requires SysInv(s) && Enabled(s, ev)
    ensures SysInv(Step(s, lim, ev))
  {
    match ev
    case Gate(t, p, r, now) => GateKeepsInv(s, lim, ev);
    case Insert(t) => InsertKeepsInv(s, lim, t);
    case Poll(t, now) => PollKeepsInv(s, lim, t, now);
    case Retry(t) => RetryKeepsInv(s, lim, t);
    case Take(t, ids) => TakeKeepsInv(s, lim, t, ids);
    case CommitNext(t, room) => CommitStepKeepsInv(s, lim, t, room);
    case Refuse(t) => RefuseKeepsInv(s, lim, t);
    case SeeBusy(_) =>
    case HandOff(t, task) => HandOffKeepsInv(s, lim, t, task);
    case Pop =>
    case Mark(t) => OtherThreadsKeepHolders(s, t, s.threads - {t});
    case Cancel(t, p, now) => CancelStepKeepsInv(s, lim, t, p, now);
    case Capture =>
    case Save(_) =>
    case Close =>
  }

  lemma GateKeepsInv(s: Sys, lim: Limits, ev: Event)
    requires SysInv(s) && ev.Gate? && Enabled(s, ev)
    ensures SysInv(Step(s, lim, ev))
  {
    var s' := Step(s, lim, ev);
    OtherThreadsKeepHolders(s, ev.t, s'.threads);
    DirtyAfter(s, s', ev.t);
  }

  lemma InsertKeepsInv(s: Sys, lim: Limits, t: nat)
    requires SysInv(s) && Enabled(s, Insert(t))
    ensures SysInv(Step(s, lim, Insert(t)))
  {
    var th := s.threads[t];
    EnqueueKeepsInv(s.core, s.inFlight, th.player, th.requestId, th.now, lim);
    var s' := Step(s, lim, Insert(t));
    OtherThreadsKeepHolders(s, t, s'.threads);
    DirtyAfter(s, s', t);
  }

  lemma PollKeepsInv(s: Sys, lim: Limits, t: nat, now: int)
    requires SysInv(s) && Enabled(s, Poll(t, now))
    ensures SysInv(Step(s, lim, Poll(t, now)))
  {
    SweepKeepsInv(s.core, s.inFlight, now, lim);
    var s' := Step(s, lim, Poll(t, now));
    OtherThreadsKeepHolders(s, t, s'.threads);
    DirtyAfter(s, s', t);
  }

  lemma CancelStepKeepsInv(s: Sys, lim: Limits, t: nat, p: string, now: int)
    requires SysInv(s) && Enabled(s, Cancel(t, p, now))
    ensures SysInv(Step(s, lim, Cancel(t, p, now)))
  {
    CancelKeepsInv(s.core, s.inFlight, p, now, lim);
    var s' := Step(s, lim, Cancel(t, p, now));
    OtherThreadsKeepHolders(s, t, s'.threads);
    DirtyAfter(s, s', t);
  }

  lemma RetryKeepsInv(s: Sys, lim: Limits, t: nat)
    requires SysInv(s) && Enabled(s, Retry(t))
    ensures SysInv(Step(s, lim, Retry(t)))
  {
    var s' := Step(s, lim, Retry(t));
    RetryFlagIrrelevant(s.core, s.inFlight, s'.core.retry);
    OtherThreadsKeepHolders(s, t, s'.threads);
    DirtyAfter(s, s', t);
  }

  lemma RetryFlagIrrelevant(c: Core, fl: InFlight, retry: bool)
    requires Inv(c, fl)
    ensures Inv(c.(retry := retry), fl)
  {
    var d := c.(retry := retry);
    forall p | p in d.entries ensures EntryOk(p, d, fl) {
      assert EntryOk(p, c, fl);
    }
    forall m | m in fl ensures Held(m, fl[m], d) {
      assert Held(m, fl[m], c);
    }
  }

  lemma TakeKeepsInv(s: Sys, lim: Limits, t: nat, ids: seq<string>)
    requires SysInv(s) && Enabled(s, Take(t, ids))
    ensures SysInv(Step(s, lim, Take(t, ids)))
  {
    var s' := Step(s, lim, Take(t, ids));
    if TakeAll(s.core, ids).groups == [] {
      OtherThreadsKeepHolders(s, t, s'.threads);
    } else {
      TakeAllKeepsInv(s.core, s.inFlight, ids);
      TakeKeepsHolders(s, t, ids);
    }
    DirtyAfter(s, s', t);
  }

  lemma CommitStepKeepsInv(s: Sys, lim: Limits, t: nat, room: string)
    requires SysInv(s) && Enabled(s, CommitNext(t, room))
    ensures SysInv(Step(s, lim, CommitNext(t, room)))
  {
    var th := s.threads[t];
    assert Holds(s.threads, t, 0, th.groups[0].matchId);
    CommitKeepsInv(s.core, s.inFlight, th.groups[0], room, th.now);
    var s' := Step(s, lim, CommitNext(t, room));
    CommitKeepsHolders(s, t, s'.threads[t]);
    DirtyAfter(s, s', t);
  }

  lemma RefuseKeepsInv(s: Sys, lim: Limits, t: nat)
    requires SysInv(s) && Enabled(s, Refuse(t))
    ensures SysInv(Step(s, lim, Refuse(t)))
  {
    var s' := Step(s, lim, Refuse(t));
    OtherThreadsKeepHolders(s, t, s'.threads);
    DirtyAfter(s, s', t);
  }

  lemma HandOffKeepsInv(s: Sys, lim: Limits, t: nat, task: nat)
    requires SysInv(s) && Enabled(s, HandOff(t, task))
    ensures SysInv(Step(s, lim, HandOff(t, task)))
  {
    HandOffKeepsHolders(s, t, task);
    assert Owes(Step(s, lim, HandOff(t, task)).threads[t]);
  }

  lemma {:induction false} RunKeepsInv(s: Sys, lim: Limits, evs: seq<Event>)
    requires SysInv(s) && Legal(s, lim, evs)
    ensures SysInv(Run(s, lim, evs))
    decreases |evs|
  {
    if evs != [] {
      StepKeepsInv(s, lim, evs[0]);
      RunKeepsInv(Step(s, lim, evs[0]), lim, evs[1..]);
    }
  }
}
