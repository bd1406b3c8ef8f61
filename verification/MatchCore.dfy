/** The match queue's critical sections as functions on a value, and the invariant they keep.

    Every section that `match_queue.cpp` runs under `mutex_` is one function here. The rooms being
    allocated outside the lock are the `InFlight` map: match id -> the two players taken for it. */
module MatchCore {
  import opened Wrappers
  import opened Seqs

  datatype Status = Idle | Queued | Matched | TimedOut

  datatype Entry = Entry(
    status: Status,
    requestId: string,
    matchId: string,
    roomId: string,
    members: seq<string>,
    queuedAt: int,
    stamp: int,
    allocating: bool,
    cancelRequested: bool)

  /** The constructor of the queue replaces non-positive limits by defaults, so they are positive. */
  datatype LimitValues = LimitValues(matchTimeout: int, resultTtl: int, maxQueue: int)

  type Limits = v: LimitValues | v.matchTimeout > 0 && v.resultTtl > 0 && v.maxQueue > 0
    witness LimitValues(30000, 120000, 1000)

  datatype Core = Core(queue: seq<string>, entries: map<string, Entry>, retry: bool)

  /** Fixed: nothing sets it. */
  const MAX_PENDING_ALLOCATIONS := 256

  /** A group handed to the room allocator. */
  datatype Group = Group(matchId: string, members: seq<string>, requestId: string)

  type InFlight = map<string, seq<string>>

  // ------------------------------------------------------------------ the invariant

  /** What a player standing in the queue looks like. */
  predicate Waiting(e: Entry) {
    && e.status.Queued?
    && !e.allocating
    && !e.cancelRequested
    && e.matchId == ""
    && e.roomId == ""
    && e.members == []
  }

  ghost predicate Pair(ps: seq<string>) {
    |ps| == 2 && ps[0] != ps[1]
  }

  /** A matched entry agrees with the entry of every player on its list. */
  ghost predicate MatchedAgrees(p: string, s: Core)
    requires p in s.entries
  {
    var e := s.entries[p];
    && Pair(e.members)
    && p in e.members
    && e.matchId != ""
    && e.roomId != ""
    && forall q :: q in e.members ==>
         && q in s.entries
         && s.entries[q].status.Matched?
         && s.entries[q].matchId == e.matchId
         && s.entries[q].roomId == e.roomId
         && s.entries[q].members == e.members
         && s.entries[q].stamp == e.stamp
  }

  ghost predicate EntryOk(p: string, s: Core, fl: InFlight)
    requires p in s.entries
  {
    var e := s.entries[p];
    match e.status
    case Idle => false
    case Queued =>
      if e.allocating then e.matchId in fl && p in fl[e.matchId] && e.roomId == ""
      else p in s.queue
    case Matched => !e.allocating && !e.cancelRequested && e.matchId !in fl && MatchedAgrees(p, s)
    case TimedOut =>
      !e.allocating && !e.cancelRequested && e.matchId == "" && e.roomId == "" && e.members == []
  }

  /** The players of a group being allocated still have their entries, marked for this very match. */
  ghost predicate Held(m: string, ps: seq<string>, s: Core) {
    && m != ""
    && Pair(ps)
    && forall p :: p in ps ==>
         && p in s.entries
         && s.entries[p].status.Queued?
         && s.entries[p].allocating
         && s.entries[p].matchId == m
         && s.entries[p].members == ps
  }

  ghost predicate QueueOk(s: Core) {
    && NoDup(s.queue)
    && forall p :: p in s.queue ==> p in s.entries && Waiting(s.entries[p])
  }

  ghost predicate OneMatchPerId(s: Core) {
    forall p, q :: p in s.entries && q in s.entries
      && s.entries[p].status.Matched? && s.entries[q].status.Matched?
      && s.entries[p].matchId == s.entries[q].matchId
      ==> s.entries[p].members == s.entries[q].members
  }

  ghost predicate Inv(s: Core, fl: InFlight) {
    && QueueOk(s)
    && (forall p :: p in s.entries ==> EntryOk(p, s, fl))
    && (forall m :: m in fl ==> Held(m, fl[m], s))
    && OneMatchPerId(s)
  }

  /** `id` names neither a group being allocated nor a recorded match. */
  ghost predicate Unused(id: string, s: Core, fl: InFlight) {
    && id !in fl
    && forall p :: p in s.entries && s.entries[p].status.Matched? ==> s.entries[p].matchId != id
  }

  // ------------------------------------------------------------------ sweeping

  predicate Overdue(e: Entry, now: int, lim: Limits) {
    now - e.queuedAt >= lim.matchTimeout
  }

  predicate Expired(e: Entry, now: int, lim: Limits) {
    (e.status.Matched? || e.status.TimedOut?) && now - e.stamp >= lim.resultTtl
  }

  function OverdueSet(s: Core, now: int, lim: Limits): set<string> {
    set p | p in s.queue && p in s.entries && Overdue(s.entries[p], now, lim)
  }

  /** The first half of a sweep on one entry: a player who waited too long is marked timed out. */
  function TimeOutOne(p: string, s: Core, now: int, lim: Limits): Entry
    requires p in s.entries
  {
    if p in OverdueSet(s, now, lim) then s.entries[p].(status := TimedOut, stamp := now)
    else s.entries[p]
  }

  function Sweep(s: Core, now: int, lim: Limits): Core {
    s.(queue := Without(s.queue, OverdueSet(s, now, lim)),
       entries := map p | p in s.entries && !Expired(TimeOutOne(p, s, now, lim), now, lim)
                    :: TimeOutOne(p, s, now, lim))
  }

  // ------------------------------------------------------------------ requests

  datatype EnqueueOutcome = ShuttingDown | Accepted | AlreadyQueued | QueueFull | InvalidArgument

  function FreshEntry(requestId: string, now: int): Entry {
    Entry(Queued, requestId, "", "", [], now, now, false, false)
  }

  datatype Enqueued = Enqueued(core: Core, outcome: EnqueueOutcome, changed: bool)

  /** The locked part of `Enqueue` before pairing: sweep, then insert unless the player is known. */
  function EnqueueStep(s0: Core, p: string, requestId: string, now: int, lim: Limits): Enqueued {
    var s := Sweep(s0, now, lim);
    if p in s.entries && (s.entries[p].status.Queued? || s.entries[p].status.Matched?) then
      Enqueued(s, AlreadyQueued, s != s0)
    else if |s.queue| >= lim.maxQueue then
      Enqueued(s, QueueFull, s != s0)
    else
      // A timed-out entry is reused: its match id, room id and member list stay (all empty).
      var e := if p in s.entries
               then s.entries[p].(status := Queued, requestId := requestId, queuedAt := now, stamp := now,
                                  allocating := false, cancelRequested := false)
               else FreshEntry(requestId, now);
      Enqueued(s.(queue := s.queue + [p], entries := s.entries[p := e]), Accepted, true)
  }

  datatype Cancelled = Cancelled(core: Core, removed: bool, changed: bool)

  function CancelStep(s0: Core, p: string, now: int, lim: Limits): Cancelled {
    var s := Sweep(s0, now, lim);
    if p !in s.entries then Cancelled(s, false, s != s0)
    else if s.entries[p].allocating then
      Cancelled(s.(entries := s.entries[p := s.entries[p].(cancelRequested := true)]), true, true)
    else if !s.entries[p].status.Queued? then Cancelled(s, false, s != s0)
    else Cancelled(s.(entries := s.entries - {p}, queue := Without(s.queue, {p})), true, true)
  }

  // ------------------------------------------------------------------ pairing

  function MarkAllocating(e: Entry, id: string, ps: seq<string>): Entry {
    e.(allocating := true, matchId := id, members := ps)
  }

  datatype Taken = Taken(core: Core, groups: seq<Group>)

  /** Take the two players at the front for match `id`. */
  function TakeOne(s: Core, id: string): (r: Core)
    requires |s.queue| >= 2 && s.queue[0] in s.entries && s.queue[1] in s.entries
  {
    var ps := s.queue[..2];
    s.(queue := s.queue[2..],
       entries := map p | p in s.entries :: if p in ps then MarkAllocating(s.entries[p], id, ps) else s.entries[p])
  }

  function GroupOf(s: Core, id: string): Group
    requires |s.queue| >= 2 && s.queue[0] in s.entries
  {
    Group(id, s.queue[..2], s.entries[s.queue[0]].requestId)
  }

  /** Phase one. `ids` are the id factory's answers in order; no answer, or an empty one, stops it. */
  function TakeAll(s: Core, ids: seq<string>): Taken
    requires forall p :: p in s.queue ==> p in s.entries
    decreases |s.queue|
  {
    if |s.queue| < 2 || |ids| == 0 || ids[0] == "" then Taken(s, [])
    else
      var rest := TakeAll(TakeOne(s, ids[0]), ids[1..]);
      Taken(rest.core, [GroupOf(s, ids[0])] + rest.groups)
  }

  /** `fl` with the groups of one round added. */
  function Tracked(fl: InFlight, groups: seq<Group>): InFlight
    decreases |groups|
  {
    if groups == [] then fl else Tracked(fl[groups[0].matchId := groups[0].members], groups[1..])
  }

  /** The members whose cancel was recorded while the room was being allocated. */
  function CancelledOf(s: Core, g: Group): set<string> {
    set p | p in g.members && p in s.entries && s.entries[p].cancelRequested
  }

  function MissingOf(s: Core, g: Group): set<string> {
    set p | p in g.members && p !in s.entries
  }

  predicate Viable(s: Core, g: Group, room: string) {
    room != "" && CancelledOf(s, g) == {}
  }

  function Returned(e: Entry): Entry {
    e.(allocating := false, matchId := "", members := [])
  }

  function MatchedInto(e: Entry, g: Group, room: string, now: int): Entry {
    e.(status := Matched, allocating := false, roomId := room, members := g.members, stamp := now)
  }

  /** Phase three for one group; `room` is the allocator's answer, empty on failure. */
  function Commit(s: Core, g: Group, room: string, now: int): Core {
    if Viable(s, g, room) then
      s.(entries := map p | p in s.entries ::
           if p in g.members then MatchedInto(s.entries[p], g, room, now) else s.entries[p])
    else
      var gone := CancelledOf(s, g);
      Core(Without(g.members, gone + MissingOf(s, g)) + s.queue,
           map p | p in s.entries && p !in gone :: if p in g.members then Returned(s.entries[p]) else s.entries[p],
           s.retry || room == "")
  }

  // ------------------------------------------------------------------ every section keeps the invariant

  lemma SweepKeepsInv(s: Core, fl: InFlight, now: int, lim: Limits)
    requires Inv(s, fl)
    ensures Inv(Sweep(s, now, lim), fl)
  {
    var t := Sweep(s, now, lim);
    WithoutNoDup(s.queue, OverdueSet(s, now, lim));
    forall p | p in t.entries ensures EntryOk(p, t, fl) {
      assert EntryOk(p, s, fl);
      if t.entries[p].status.Matched? {
        MembersSweptTogether(s, fl, p, now, lim);
      }
    }
    SweepKeepsGroups(s, fl, now, lim);
  }

  lemma SweepKeepsGroups(s: Core, fl: InFlight, now: int, lim: Limits)
    requires Inv(s, fl)
    ensures forall m :: m in fl ==> Held(m, fl[m], Sweep(s, now, lim))
  {
    forall m | m in fl ensures Held(m, fl[m], Sweep(s, now, lim)) {
      assert Held(m, fl[m], s);
    }
  }

  /** A matched player is dropped by a sweep exactly when every player on the list is. */
  lemma MembersSweptTogether(s: Core, fl: InFlight, p: string, now: int, lim: Limits)
    requires Inv(s, fl)
    requires p in s.entries && s.entries[p].status.Matched?
    ensures forall q :: q in s.entries[p].members ==>
      && q in s.entries
      && (q in Sweep(s, now, lim).entries <==> p in Sweep(s, now, lim).entries)
      && (q in Sweep(s, now, lim).entries ==> Sweep(s, now, lim).entries[q] == s.entries[q])
  {
    assert EntryOk(p, s, fl);
  }

  lemma EnqueueKeepsInv(s: Core, fl: InFlight, p: string, requestId: string, now: int, lim: Limits)
    requires Inv(s, fl)
    ensures Inv(EnqueueStep(s, p, requestId, now, lim).core, fl)
  {
    SweepKeepsInv(s, fl, now, lim);
    var u := Sweep(s, now, lim);
    var r := EnqueueStep(s, p, requestId, now, lim);
    if r.outcome.Accepted? {
      var t := r.core;
      if p in u.entries {
        assert EntryOk(p, u, fl);
      }
      assert p !in u.queue;
      NoDupConcat(u.queue, [p]);
      InsertKeepsOthers(u, t, fl, p);
    }
  }

  /** Adding a waiting entry for a player who is neither queued, in flight nor matched. */
  lemma InsertKeepsOthers(u: Core, t: Core, fl: InFlight, p: string)
    requires Inv(u, fl)
    requires p in u.entries ==> u.entries[p].status.TimedOut?
    requires t.entries.Keys == u.entries.Keys + {p} && t.queue == u.queue + [p] && NoDup(t.queue)
    requires Waiting(t.entries[p])
    requires forall q :: q in u.entries && q != p ==> t.entries[q] == u.entries[q]
    ensures Inv(t, fl)
  {
    forall m | m in fl ensures Held(m, fl[m], t) {
      assert Held(m, fl[m], u);
    }
    forall q | q in t.entries ensures EntryOk(q, t, fl) {
      if q != p {
        assert EntryOk(q, u, fl);
      }
    }
  }

  lemma CancelKeepsInv(s: Core, fl: InFlight, p: string, now: int, lim: Limits)
    requires Inv(s, fl)
    ensures Inv(CancelStep(s, p, now, lim).core, fl)
  {
    SweepKeepsInv(s, fl, now, lim);
    var u := Sweep(s, now, lim);
    if p in u.entries && u.entries[p].allocating {
      FlagKeepsInv(u, fl, p);
    } else if p in u.entries && u.entries[p].status.Queued? {
      EraseKeepsInv(u, fl, p);
    }
  }

  lemma FlagKeepsInv(u: Core, fl: InFlight, p: string)
    requires Inv(u, fl) && p in u.entries && u.entries[p].allocating
    ensures Inv(u.(entries := u.entries[p := u.entries[p].(cancelRequested := true)]), fl)
  {
    var t := u.(entries := u.entries[p := u.entries[p].(cancelRequested := true)]);
    assert EntryOk(p, u, fl);
    forall m | m in fl ensures Held(m, fl[m], t) {
      assert Held(m, fl[m], u);
    }
    forall q | q in t.entries ensures EntryOk(q, t, fl) {
      assert EntryOk(q, u, fl);
    }
  }

  lemma EraseKeepsInv(u: Core, fl: InFlight, p: string)
    requires Inv(u, fl) && p in u.entries && u.entries[p].status.Queued? && !u.entries[p].allocating
    ensures Inv(u.(entries := u.entries - {p}, queue := Without(u.queue, {p})), fl)
  {
    var t := u.(entries := u.entries - {p}, queue := Without(u.queue, {p}));
    WithoutNoDup(u.queue, {p});
    forall m | m in fl ensures Held(m, fl[m], t) {
      assert Held(m, fl[m], u);
    }
    forall q | q in t.entries ensures EntryOk(q, t, fl) {
      assert EntryOk(q, u, fl);
    }
  }

  lemma TakeOneKeepsInv(s: Core, fl: InFlight, id: string)
    requires Inv(s, fl) && |s.queue| >= 2
    requires id != "" && Unused(id, s, fl)
    ensures Inv(TakeOne(s, id), fl[id := s.queue[..2]])
    ensures forall p :: p in s.queue[..2] ==> p !in TakeOne(s, id).queue
  {
    var ps := s.queue[..2];
    var t := TakeOne(s, id);
    var fl' := fl[id := ps];
    assert ps[0] == s.queue[0] && ps[1] == s.queue[1];
    assert NoDup(t.queue);
    forall p | p in ps ensures p !in t.queue && p in s.entries && Waiting(s.entries[p]) {
      assert p in s.queue;
    }
    forall p | p in t.queue ensures p in t.entries && Waiting(t.entries[p]) {
      assert p in s.queue;
    }
    forall m | m in fl' ensures Held(m, fl'[m], t) {
      if m != id {
        assert Held(m, fl[m], s);
      }
    }
    forall p | p in t.entries ensures EntryOk(p, t, fl') {
      assert EntryOk(p, s, fl);
      if p in s.queue && p !in ps {
        assert p in s.queue[2..];
      }
    }
  }

  /** What the id factory owes one round: distinct answers, unused so far, until it fails. */
  ghost predicate FreshIds(ids: seq<string>, s: Core, fl: InFlight) {
    && NoDup(ids)
    && forall i :: 0 <= i < |ids| && ids[i] != "" ==> Unused(ids[i], s, fl)
  }

  lemma FreshIdsTail(s: Core, fl: InFlight, ids: seq<string>)
    requires Inv(s, fl) && FreshIds(ids, s, fl)
    requires |s.queue| >= 2 && |ids| > 0 && ids[0] != ""
    ensures FreshIds(ids[1..], TakeOne(s, ids[0]), fl[ids[0] := s.queue[..2]])
  {
    var t := TakeOne(s, ids[0]);
    var fl' := fl[ids[0] := s.queue[..2]];
    assert NoDup(ids[1..]);
    forall i | 0 <= i < |ids[1..]| && ids[1..][i] != "" ensures Unused(ids[1..][i], t, fl') {
      assert Unused(ids[i + 1], s, fl);
    }
  }

  lemma {:induction false} TakeAllKeepsInv(s: Core, fl: InFlight, ids: seq<string>)
    requires Inv(s, fl) && FreshIds(ids, s, fl)
    ensures Inv(TakeAll(s, ids).core, Tracked(fl, TakeAll(s, ids).groups))
    decreases |s.queue|
  {
    if |s.queue| >= 2 && |ids| > 0 && ids[0] != "" {
      TakeOneKeepsInv(s, fl, ids[0]);
      var t := TakeOne(s, ids[0]);
      var fl' := fl[ids[0] := s.queue[..2]];
      FreshIdsTail(s, fl, ids);
      TakeAllKeepsInv(t, fl', ids[1..]);
    }
  }

  lemma CommitKeepsInv(s: Core, fl: InFlight, g: Group, room: string, now: int)
    requires Inv(s, fl) && g.matchId in fl && fl[g.matchId] == g.members
    ensures Inv(Commit(s, g, room, now), fl - {g.matchId})
  {
    assert Held(g.matchId, g.members, s);
    if Viable(s, g, room) {
      CommitMatchesKeepsInv(s, fl, g, room, now);
    } else {
      CommitReturnsKeepsInv(s, fl, g, room, now);
    }
  }

  /** A commit touches no entry of a player matched before. */
  lemma CommitLeavesMatched(s: Core, fl: InFlight, g: Group, room: string, now: int, p: string)
    requires Inv(s, fl) && Held(g.matchId, g.members, s)
    requires p in s.entries && s.entries[p].status.Matched?
    ensures forall q :: q in s.entries[p].members ==>
      q in s.entries && q in Commit(s, g, room, now).entries && Commit(s, g, room, now).entries[q] == s.entries[q]
    ensures p in s.entries[p].members
  {
    assert EntryOk(p, s, fl);
  }

  lemma MatchedFrame(s: Core, t: Core, p: string)
    requires p in s.entries && MatchedAgrees(p, s)
    requires forall q :: q in s.entries[p].members ==> q in s.entries && q in t.entries && t.entries[q] == s.entries[q]
    ensures p in t.entries && MatchedAgrees(p, t)
  {
  }

  lemma CommitMatchesKeepsInv(s: Core, fl: InFlight, g: Group, room: string, now: int)
    requires Inv(s, fl) && g.matchId in fl && fl[g.matchId] == g.members
    requires Held(g.matchId, g.members, s) && Viable(s, g, room)
    ensures Inv(Commit(s, g, room, now), fl - {g.matchId})
  {
    var t := Commit(s, g, room, now);
    var fl' := fl - {g.matchId};
    forall m | m in fl' ensures Held(m, fl'[m], t) {
      assert Held(m, fl[m], s);
    }
    forall p | p in t.entries ensures EntryOk(p, t, fl') {
      assert EntryOk(p, s, fl);
      if p in g.members {
        assert p !in CancelledOf(s, g);
        assert MatchedAgrees(p, t);
      } else if s.entries[p].status.Matched? {
        CommitLeavesMatched(s, fl, g, room, now, p);
        MatchedFrame(s, t, p);
      }
    }
  }

  lemma CommitReturnsKeepsInv(s: Core, fl: InFlight, g: Group, room: string, now: int)
    requires Inv(s, fl) && g.matchId in fl && fl[g.matchId] == g.members
    requires Held(g.matchId, g.members, s) && !Viable(s, g, room)
    ensures Inv(Commit(s, g, room, now), fl - {g.matchId})
  {
    var t := Commit(s, g, room, now);
    var fl' := fl - {g.matchId};
    var gone := CancelledOf(s, g);
    assert MissingOf(s, g) == {};
    assert gone + {} == gone;
    WithoutNoDup(g.members, gone);
    NoDupConcat(Without(g.members, gone), s.queue);
    forall p | p in t.queue ensures p in t.entries && Waiting(t.entries[p]) {
      if p in s.queue {
        assert p !in g.members;
      } else {
        assert EntryOk(p, s, fl);
      }
    }
    forall m | m in fl' ensures Held(m, fl'[m], t) {
      assert Held(m, fl[m], s);
    }
    forall p | p in t.entries ensures EntryOk(p, t, fl') {
      assert EntryOk(p, s, fl);
      if s.entries[p].status.Matched? {
        CommitLeavesMatched(s, fl, g, room, now, p);
        MatchedFrame(s, t, p);
      }
    }
  }

  // ------------------------------------------------------------------ the groups of one round

  ghost predicate DistinctIds(gs: seq<Group>) {
    forall i, j :: 0 <= i < j < |gs| ==> gs[i].matchId != gs[j].matchId
  }

  lemma {:induction false} TakenGroups(s: Core, fl: InFlight, ids: seq<string>)
    requires Inv(s, fl) && FreshIds(ids, s, fl)
    ensures var gs := TakeAll(s, ids).groups;
      && |gs| <= |ids|
      && (forall i :: 0 <= i < |gs| ==> gs[i].matchId == ids[i] && ids[i] != "")
    decreases |s.queue|
  {
    if |s.queue| >= 2 && |ids| > 0 && ids[0] != "" {
      TakeOneKeepsInv(s, fl, ids[0]);
      var t := TakeOne(s, ids[0]);
      var fl' := fl[ids[0] := s.queue[..2]];
      FreshIdsTail(s, fl, ids);
      TakenGroups(t, fl', ids[1..]);
    }
  }

  lemma {:induction false} TrackedContents(fl: InFlight, gs: seq<Group>)
    requires DistinctIds(gs)
    ensures var r := Tracked(fl, gs);
      && (forall i :: 0 <= i < |gs| ==> gs[i].matchId in r && r[gs[i].matchId] == gs[i].members)
      && (forall m :: m in r ==> m in fl || exists i :: 0 <= i < |gs| && gs[i].matchId == m)
      && (forall m :: m in fl ==> m in r)
      && (forall m :: m in fl && (forall i :: 0 <= i < |gs| ==> gs[i].matchId != m) ==> r[m] == fl[m])
    decreases |gs|
  {
    if gs != [] {
      var rest := gs[1..];
      var fl' := fl[gs[0].matchId := gs[0].members];
      TrackedContents(fl', rest);
      var r := Tracked(fl, gs);
      forall i | 0 <= i < |gs| ensures gs[i].matchId in r && r[gs[i].matchId] == gs[i].members {
        if i > 0 {
          assert rest[i - 1] == gs[i];
        } else {
          assert forall j :: 0 <= j < |rest| ==> rest[j] == gs[j + 1] && rest[j].matchId != gs[0].matchId;
          assert gs[0].matchId in fl';
        }
      }
      forall m | m in r && m !in fl ensures exists i :: 0 <= i < |gs| && gs[i].matchId == m {
        if m != gs[0].matchId {
          var i :| 0 <= i < |rest| && rest[i].matchId == m;
          assert gs[i + 1].matchId == m;
        }
      }
    }
  }

  lemma TakenIdsFresh(s: Core, fl: InFlight, ids: seq<string>)
    requires Inv(s, fl) && FreshIds(ids, s, fl)
    ensures var gs := TakeAll(s, ids).groups;
      && DistinctIds(gs)
      && (forall i :: 0 <= i < |gs| ==> gs[i].matchId !in fl)
  {
    TakenGroups(s, fl, ids);
    var gs := TakeAll(s, ids).groups;
    forall i | 0 <= i < |gs| ensures gs[i].matchId !in fl {
      assert Unused(ids[i], s, fl);
    }
  }
}
