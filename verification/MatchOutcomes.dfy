/** Who is matched with whom and into which room, who times out, who is let in and who is let go: each
    critical section by what it does to every entry, and a matched player's room over whole runs. */
module MatchOutcomes {
  import opened Wrappers
  import opened Seqs
  import opened MatchCore
  import opened MatchProtocol
  import opened MatchTheorems
  import opened MatchRounds
  import MatchStranded

  // ------------------------------------------------------------------ the room of a match

  /** The entry records this match: its id, its players, the allocator's answer and the round's time. */
  predicate RecordsMatch(e: Entry, g: Group, room: string, now: int) {
    && e.status.Matched? && !e.allocating
    && e.matchId == g.matchId && e.members == g.members && e.roomId == room && e.stamp == now
  }

  lemma CommitMatches(s: Core, g: Group, room: string, now: int)
    requires Held(g.matchId, g.members, s) && room != ""
    requires forall p :: p in g.members ==> !s.entries[p].cancelRequested
    ensures var c := Commit(s, g, room, now);
      && c.queue == s.queue && c.retry == s.retry && c.entries.Keys == s.entries.Keys
      && (forall p :: p in g.members ==> p in c.entries && RecordsMatch(c.entries[p], g, room, now))
      && (forall p :: p in s.entries && p !in g.members ==> c.entries[p] == s.entries[p])
  {
    assert CancelledOf(s, g) == {};
  }

  /** A room was found and nobody had cancelled: every member is matched into that room. */
  lemma CommitGivesTheRoom(s: Sys, lim: Limits, t: nat, room: string)
    requires SysInv(s) && Enabled(s, CommitNext(t, room)) && room != ""
    requires var g := s.threads[t].groups[0];
      forall p :: p in g.members && p in s.core.entries ==> !s.core.entries[p].cancelRequested
    ensures var g := s.threads[t].groups[0];
      var q := Step(s, lim, CommitNext(t, room));
      && q.core.queue == s.core.queue
      && (forall p :: p in g.members ==>
            p in q.core.entries && RecordsMatch(q.core.entries[p], g, room, s.threads[t].now))
      && (forall p :: p in s.core.entries && p !in g.members ==>
            p in q.core.entries && q.core.entries[p] == s.core.entries[p])
  {
    var g := s.threads[t].groups[0];
    GroupIsHeld(s, t);
    CommitMatches(s.core, g, room, s.threads[t].now);
  }

  lemma GroupIsHeld(s: Sys, t: nat)
    requires SysInv(s) && t in s.threads && s.threads[t].Allocating? && s.threads[t].groups != []
    ensures var g := s.threads[t].groups[0]; Held(g.matchId, g.members, s.core)
  {
    var g := s.threads[t].groups[0];
    assert Holds(s.threads, t, 0, g.matchId);
    assert Held(g.matchId, s.inFlight[g.matchId], s.core);
  }

  /** No room, or somebody cancelled: those who cancelled are gone, the others wait again in front, in
      order and as before, and a retry is asked for if there was no room. */
  lemma CommitReturns(s: Core, g: Group, room: string, now: int)
    requires Held(g.matchId, g.members, s)
    requires room == "" || exists p :: p in g.members && s.entries[p].cancelRequested
    ensures var c := Commit(s, g, room, now);
      && c.retry == (s.retry || room == "")
      && (forall p :: p in g.members ==> (p in c.entries <==> !s.entries[p].cancelRequested))
      && (forall p :: p in g.members && p in c.entries ==>
            && c.entries[p].status.Queued? && !c.entries[p].allocating && c.entries[p].matchId == ""
            && c.entries[p].members == [] && c.entries[p].queuedAt == s.entries[p].queuedAt
            && c.entries[p].requestId == s.entries[p].requestId)
      && (forall p :: p in s.entries && p !in g.members ==> p in c.entries && c.entries[p] == s.entries[p])
      && c.queue == (if s.entries[g.members[0]].cancelRequested then [] else [g.members[0]])
                    + (if s.entries[g.members[1]].cancelRequested then [] else [g.members[1]]) + s.queue
  {
    var gone := CancelledOf(s, g);
    if room != "" {
      var p :| p in g.members && s.entries[p].cancelRequested;
      assert p in gone;
    }
    assert MissingOf(s, g) == {} && gone + {} == gone;
    assert g.members == [g.members[0]] + [g.members[1]];
    PairWithout(g.members[0], g.members[1], gone);
  }

  lemma PairWithout(a: string, b: string, gone: set<string>)
    ensures Without([a] + [b], gone) == (if a in gone then [] else [a]) + (if b in gone then [] else [b])
  {
    assert ([a] + [b])[1..] == [b] && [b][1..] == [];
    assert Without([b], gone) == if b in gone then [] else [b];
  }

  // ------------------------------------------------------------------ over a run

  /** This step is the allocator's answer that matched `p` as `e` says. */
  ghost predicate MatchesNow(s: Sys, ev: Event, p: string, e: Entry)
    requires Enabled(s, ev)
  {
    && ev.CommitNext? && ev.room != ""
    && var g := s.threads[ev.t].groups[0];
       && p in g.members && RecordsMatch(e, g, ev.room, s.threads[ev.t].now)
       && p in s.core.entries && !s.core.entries[p].status.Matched?
  }

  /** Some step of the run is. */
  ghost predicate MatchedOnTheWay(s: Sys, lim: Limits, evs: seq<Event>, p: string, e: Entry)
    requires SysInv(s) && Legal(s, lim, evs)
    decreases |evs|
  {
    evs != [] && (MatchesNow(s, evs[0], p, e)
                  || (StepKeepsInv(s, lim, evs[0]); MatchedOnTheWay(Step(s, lim, evs[0]), lim, evs[1..], p, e)))
  }

  ghost predicate WasMatched(c: Core, p: string, e: Entry) {
    p in c.entries && c.entries[p] == e
  }

  lemma CommitMatchesOnlyMembers(s: Core, g: Group, room: string, now: int, p: string)
    requires Held(g.matchId, g.members, s)
    requires p in Commit(s, g, room, now).entries && Commit(s, g, room, now).entries[p].status.Matched?
    ensures var e := Commit(s, g, room, now).entries[p];
      || WasMatched(s, p, e)
      || (room != "" && p in g.members && RecordsMatch(e, g, room, now) && p in s.entries
          && !s.entries[p].status.Matched?)
  {
    if room != "" && forall k :: k in g.members ==> !s.entries[k].cancelRequested {
      CommitMatches(s, g, room, now);
    } else {
      CommitReturns(s, g, room, now);
    }
  }

  lemma CommitIsTheAnswer(s: Sys, lim: Limits, t: nat, room: string, p: string)
    requires SysInv(s) && Enabled(s, CommitNext(t, room))
    requires var q := Step(s, lim, CommitNext(t, room)); p in q.core.entries && q.core.entries[p].status.Matched?
    ensures var e := Step(s, lim, CommitNext(t, room)).core.entries[p];
      WasMatched(s.core, p, e) || MatchesNow(s, CommitNext(t, room), p, e)
  {
    GroupIsHeld(s, t);
    CommitMatchesOnlyMembers(s.core, s.threads[t].groups[0], room, s.threads[t].now, p);
  }

  lemma TakeMatchesNobody(s: Core, fl: InFlight, ids: seq<string>, p: string)
    requires Inv(s, fl) && FreshIds(ids, s, fl)
    requires p in TakeAll(s, ids).core.entries && TakeAll(s, ids).core.entries[p].status.Matched?
    ensures p in s.entries && TakeAll(s, ids).core.entries[p] == s.entries[p]
  {
    TakeLeavesMatched(s, fl, ids);
    assert EntryOk(p, s, fl);
  }

  lemma StepMatches(s: Sys, lim: Limits, ev: Event, p: string)
    requires SysInv(s) && Enabled(s, ev)
    requires p in Step(s, lim, ev).core.entries && Step(s, lim, ev).core.entries[p].status.Matched?
    ensures var e := Step(s, lim, ev).core.entries[p]; WasMatched(s.core, p, e) || MatchesNow(s, ev, p, e)
  {
    match ev
    case CommitNext(t, room) => CommitIsTheAnswer(s, lim, t, room, p);
    case _ => OthersMatchNobody(s, lim, ev, p);
  }

  lemma OthersMatchNobody(s: Sys, lim: Limits, ev: Event, p: string)
    requires SysInv(s) && Enabled(s, ev) && !ev.CommitNext?
    requires p in Step(s, lim, ev).core.entries && Step(s, lim, ev).core.entries[p].status.Matched?
    ensures WasMatched(s.core, p, Step(s, lim, ev).core.entries[p])
  {
    match ev
    case Insert(t) =>
      var th := s.threads[t];
      EnqueueMatchesNobody(s.core, th.player, th.requestId, th.now, lim, p);
    case Poll(_, now) => SweepMatchesNobody(s.core, now, lim, p);
    case Take(t, ids) => TakeMatchesNobody(s.core, s.inFlight, ids, p);
    case Cancel(_, q, now) => CancelMatchesNobody(s.core, s.inFlight, q, now, lim, p);
    case _ =>
  }

  lemma SweepMatchesNobody(s: Core, now: int, lim: Limits, p: string)
    requires p in Sweep(s, now, lim).entries && Sweep(s, now, lim).entries[p].status.Matched?
    ensures WasMatched(s, p, Sweep(s, now, lim).entries[p])
  {
  }

  lemma EnqueueMatchesNobody(s: Core, q: string, r: string, now: int, lim: Limits, p: string)
    requires var c := EnqueueStep(s, q, r, now, lim).core; p in c.entries && c.entries[p].status.Matched?
    ensures WasMatched(s, p, EnqueueStep(s, q, r, now, lim).core.entries[p])
  {
  }

  lemma CancelMatchesNobody(s: Core, fl: InFlight, q: string, now: int, lim: Limits, p: string)
    requires Inv(s, fl)
    requires var c := CancelStep(s, q, now, lim).core; p in c.entries && c.entries[p].status.Matched?
    ensures WasMatched(s, p, CancelStep(s, q, now, lim).core.entries[p])
  {
    SweepKeepsInv(s, fl, now, lim);
    assert EntryOk(p, Sweep(s, now, lim), fl) || p !in Sweep(s, now, lim).entries;
  }

  /** Over any run: a matched player is in the room the allocator answered to the step that matched that
      player, with that step's group and time; or was matched so from the beginning. */
  lemma {:induction false} RoomIsTheAllocatorsAnswer(s: Sys, lim: Limits, evs: seq<Event>, p: string)
    requires SysInv(s) && Legal(s, lim, evs)
    requires p in Run(s, lim, evs).core.entries && Run(s, lim, evs).core.entries[p].status.Matched?
    ensures var e := Run(s, lim, evs).core.entries[p];
      WasMatched(s.core, p, e) || MatchedOnTheWay(s, lim, evs, p, e)
    decreases |evs|
  {
    if evs != [] {
      StepKeepsInv(s, lim, evs[0]);
      var q := Step(s, lim, evs[0]);
      RoomIsTheAllocatorsAnswer(q, lim, evs[1..], p);
      var e := Run(s, lim, evs).core.entries[p];
      if WasMatched(q.core, p, e) {
        StepMatches(s, lim, evs[0], p);
      }
    }
  }

  // ------------------------------------------------------------------ sweeping

  /** A sweep times out exactly the players who have waited in the queue for the match timeout, drops
      exactly the matches and time-outs as old as their retention, and leaves everything else alone. */
  lemma SweepExactly(s: Core, fl: InFlight, now: int, lim: Limits, p: string)
    requires Inv(s, fl) && p in s.entries
    ensures var e, c := s.entries[p], Sweep(s, now, lim);
      var waits := e.status.Queued? && !e.allocating;
      && (p in s.queue <==> waits)
      && (p in c.queue <==> waits && now - e.queuedAt < lim.matchTimeout)
      && (if waits && now - e.queuedAt >= lim.matchTimeout then
            p in c.entries && c.entries[p] == e.(status := TimedOut, stamp := now)
          else if (e.status.Matched? || e.status.TimedOut?) && now - e.stamp >= lim.resultTtl then p !in c.entries
          else p in c.entries && c.entries[p] == e)
  {
    assert EntryOk(p, s, fl);
  }

  /** It adds nobody and keeps the order of those who go on waiting. */
  lemma SweepKeepsOrder(s: Core, now: int, lim: Limits, i: nat, j: nat)
    requires NoDup(s.queue) && (forall p :: p in s.queue ==> p in s.entries)
    requires i < j < |Sweep(s, now, lim).queue|
    ensures var c := Sweep(s, now, lim);
      exists k, l :: 0 <= k < l < |s.queue| && s.queue[k] == c.queue[i] && s.queue[l] == c.queue[j]
    ensures Sweep(s, now, lim).entries.Keys <= s.entries.Keys && Sweep(s, now, lim).retry == s.retry
  {
    WithoutKeepsOrder(s.queue, OverdueSet(s, now, lim), i, j);
  }

  lemma {:induction false} WithoutKeepsOrder(q: seq<string>, gone: set<string>, i: nat, j: nat)
    requires i < j < |Without(q, gone)|
    ensures exists k, l :: 0 <= k < l < |q| && q[k] == Without(q, gone)[i] && q[l] == Without(q, gone)[j]
    decreases |q|
  {
    if q[0] in gone {
      WithoutKeepsOrder(q[1..], gone, i, j);
      var k, l :| 0 <= k < l < |q[1..]| && q[1..][k] == Without(q, gone)[i] && q[1..][l] == Without(q, gone)[j];
      assert q[k + 1] == Without(q, gone)[i] && q[l + 1] == Without(q, gone)[j];
    } else if i > 0 {
      WithoutKeepsOrder(q[1..], gone, i - 1, j - 1);
      var k, l :| 0 <= k < l < |q[1..]|
        && q[1..][k] == Without(q[1..], gone)[i - 1] && q[1..][l] == Without(q[1..], gone)[j - 1];
      assert q[k + 1] == Without(q, gone)[i] && q[l + 1] == Without(q, gone)[j];
    } else {
      var x := Without(q, gone)[j];
      assert x in Without(q[1..], gone) by {
        assert Without(q, gone)[1..][j - 1] == x;
      }
      var l :| 0 <= l < |q[1..]| && q[1..][l] == x;
      assert q[0] == Without(q, gone)[i] && q[l + 1] == x;
    }
  }

  // ------------------------------------------------------------------ enqueueing and cancelling

  /** Waiting from this moment on behalf of this request, with nothing left of an earlier match. */
  predicate WaitsSince(e: Entry, requestId: string, now: int) {
    && e.status.Queued? && !e.allocating && !e.cancelRequested
    && e.matchId == "" && e.roomId == "" && e.members == []
    && e.requestId == requestId && e.queuedAt == now
  }

  /** After the sweep: a player who waits or is matched is told so; a full queue takes nobody; anybody else
      goes to the end of the queue, to wait from now on, and nobody else is touched. */
  lemma EnqueueExactly(s: Core, fl: InFlight, p: string, requestId: string, now: int, lim: Limits)
    requires Inv(s, fl)
    ensures var u, r := Sweep(s, now, lim), EnqueueStep(s, p, requestId, now, lim);
      var known := p in u.entries && (u.entries[p].status.Queued? || u.entries[p].status.Matched?);
      && r.core.retry == s.retry
      && (r.changed <==> r.core != s)
      && (if known then r.outcome.AlreadyQueued? && r.core == u
          else if |u.queue| >= lim.maxQueue then r.outcome.QueueFull? && r.core == u
          else
            && r.outcome.Accepted? && r.core.queue == u.queue + [p]
            && r.core.entries.Keys == u.entries.Keys + {p}
            && WaitsSince(r.core.entries[p], requestId, now)
            && forall q :: q in u.entries && q != p ==> r.core.entries[q] == u.entries[q])
  {
    SweepKeepsInv(s, fl, now, lim);
    var u := Sweep(s, now, lim);
    assert |u.queue| <= |s.queue|;
    if p in u.entries {
      assert EntryOk(p, u, fl);
    }
  }

  /** After the sweep: a waiting player leaves the queue and is forgotten; one whose room is being allocated
      is only marked; for anybody else nothing happens. The answer says whether there was something to cancel. */
  lemma CancelExactly(s: Core, fl: InFlight, p: string, now: int, lim: Limits)
    requires Inv(s, fl)
    ensures var u, r := Sweep(s, now, lim), CancelStep(s, p, now, lim);
      && (r.removed <==> p in u.entries && u.entries[p].status.Queued?)
      && (!r.removed ==> r.core == u)
      && (r.removed && u.entries[p].allocating ==>
            && r.core.queue == u.queue && r.core.entries.Keys == u.entries.Keys
            && r.core.entries[p] == u.entries[p].(cancelRequested := true))
      && (r.removed && !u.entries[p].allocating ==>
            p !in r.core.queue && r.core.entries.Keys == u.entries.Keys - {p} && |r.core.queue| == |u.queue| - 1)
  {
    SweepKeepsInv(s, fl, now, lim);
    var u := Sweep(s, now, lim);
    if p in u.entries {
      StandsInQueue(u, fl, p);
    }
  }

  /** Nobody else is touched. */
  lemma CancelLeavesOthers(s: Core, p: string, now: int, lim: Limits)
    ensures var u, c := Sweep(s, now, lim), CancelStep(s, p, now, lim).core;
      && c.retry == u.retry
      && (forall q :: q in c.entries && q != p ==> q in u.entries && c.entries[q] == u.entries[q])
      && (forall q :: q != p ==> (q in c.queue <==> q in u.queue))
  {
  }

  lemma StandsInQueue(u: Core, fl: InFlight, p: string)
    requires Inv(u, fl) && p in u.entries
    ensures u.entries[p].allocating ==> u.entries[p].status.Queued?
    ensures u.entries[p].status.Queued? && !u.entries[p].allocating ==> |Without(u.queue, {p})| == |u.queue| - 1
  {
    assert EntryOk(p, u, fl);
    if u.entries[p].status.Queued? && !u.entries[p].allocating {
      WithoutOne(u.queue, p);
    }
  }

  lemma {:induction false} WithoutOne(q: seq<string>, p: string)
    requires NoDup(q) && p in q
    ensures |Without(q, {p})| == |q| - 1
    decreases |q|
  {
    assert q == [q[0]] + q[1..];
    if q[0] == p {
      assert p !in q[1..];
      WithoutKeepsAll(q[1..], {p});
    } else {
      WithoutOne(q[1..], p);
    }
  }

  // ------------------------------------------------------------------ pairing

  /** The i-th group: the i-th two players of the queue, the i-th answer, the first player's request. */
  ghost predicate TakenPair(g: Group, s: Core, ids: seq<string>, i: nat) {
    && 2 * i + 1 < |s.queue| && i < |ids| && s.queue[2 * i] in s.entries
    && g.matchId == ids[i] && g.members == [s.queue[2 * i], s.queue[2 * i + 1]]
    && g.requestId == s.entries[s.queue[2 * i]].requestId
  }

  lemma PairLater(g: Group, s: Core, fl: InFlight, ids: seq<string>, i: nat)
    requires Inv(s, fl) && |s.queue| >= 2 && |ids| > 0
    requires TakenPair(g, TakeOne(s, ids[0]), ids[1..], i)
    ensures TakenPair(g, s, ids, i + 1)
  {
  }

  lemma FirstPair(s: Core, fl: InFlight, ids: seq<string>)
    requires Inv(s, fl) && |s.queue| >= 2 && |ids| > 0
    ensures TakenPair(GroupOf(s, ids[0]), s, ids, 0)
  {
    assert s.queue[0] in s.queue;
  }

  lemma QueueLater(q: seq<string>, n: nat)
    requires |q| >= 2 && 2 * n <= |q| - 2
    ensures q[2..][2 * n..] == q[2 * (n + 1)..]
  {
  }

  lemma {:induction false} TakesHowMany(s: Core, ids: seq<string>)
    requires forall p :: p in s.queue ==> p in s.entries
    ensures |TakeAll(s, ids).groups| ==
            (if MatchStranded.Answers(ids) < |s.queue| / 2 then MatchStranded.Answers(ids) else |s.queue| / 2)
    decreases |s.queue|
  {
    if |s.queue| >= 2 && |ids| > 0 && ids[0] != "" {
      TakesHowMany(TakeOne(s, ids[0]), ids[1..]);
    }
  }

  lemma {:induction false} TakesFromTheFront(s: Core, ids: seq<string>)
    requires forall p :: p in s.queue ==> p in s.entries
    ensures var r := TakeAll(s, ids);
      2 * |r.groups| <= |s.queue| && r.core.queue == s.queue[2 * |r.groups|..] && r.core.retry == s.retry
    decreases |s.queue|
  {
    if |s.queue| >= 2 && |ids| > 0 && ids[0] != "" {
      var t := TakeOne(s, ids[0]);
      TakesFromTheFront(t, ids[1..]);
      QueueLater(s.queue, |TakeAll(t, ids[1..]).groups|);
    }
  }

  lemma PairsLater(g: Group, gs: seq<Group>, s: Core, fl: InFlight, ids: seq<string>)
    requires Inv(s, fl) && |s.queue| >= 2 && |ids| > 0 && g == GroupOf(s, ids[0])
    requires forall i :: 0 <= i < |gs| ==> TakenPair(gs[i], TakeOne(s, ids[0]), ids[1..], i)
    ensures forall i :: 0 <= i < |gs| + 1 ==> TakenPair(([g] + gs)[i], s, ids, i)
  {
    FirstPair(s, fl, ids);
    forall i | 0 <= i < |gs| + 1 ensures TakenPair(([g] + gs)[i], s, ids, i) {
      if i > 0 {
        PairLater(gs[i - 1], s, fl, ids, i - 1);
      }
    }
  }

  lemma {:induction false} TakesInPairs(s: Core, fl: InFlight, ids: seq<string>)
    requires Inv(s, fl) && FreshIds(ids, s, fl)
    ensures forall i :: 0 <= i < |TakeAll(s, ids).groups| ==> TakenPair(TakeAll(s, ids).groups[i], s, ids, i)
    decreases |s.queue|
  {
    if |s.queue| >= 2 && |ids| > 0 && ids[0] != "" {
      TakeOneKeepsInv(s, fl, ids[0]);
      FreshIdsTail(s, fl, ids);
      var t := TakeOne(s, ids[0]);
      TakesInPairs(t, fl[ids[0] := s.queue[..2]], ids[1..]);
      PairsLater(GroupOf(s, ids[0]), TakeAll(t, ids[1..]).groups, s, fl, ids);
    }
  }

  /** Phase one takes players off the front of the queue two by two, as long as there are two and the
      factory answers: first come, first paired, under the answers in order and the first player's request. */
  lemma TakesPairsInOrder(s: Core, fl: InFlight, ids: seq<string>)
    requires Inv(s, fl) && FreshIds(ids, s, fl)
    ensures var r := TakeAll(s, ids);
      var n := |r.groups|;
      && n == (if MatchStranded.Answers(ids) < |s.queue| / 2 then MatchStranded.Answers(ids) else |s.queue| / 2)
      && r.core.queue == s.queue[2 * n..] && r.core.retry == s.retry
      && forall i :: 0 <= i < n ==> TakenPair(r.groups[i], s, ids, i)
  {
    TakesHowMany(s, ids);
    TakesFromTheFront(s, ids);
    TakesInPairs(s, fl, ids);
  }

  /** Marked for one of the groups, keeping when the wait began. */
  ghost predicate MarkedFor(c: Entry, e: Entry, p: string, groups: seq<Group>) {
    && c.allocating && c.status.Queued? && !c.cancelRequested && c.queuedAt == e.queuedAt
    && exists i :: 0 <= i < |groups| && p in groups[i].members
                   && c.matchId == groups[i].matchId && c.members == groups[i].members
  }

  lemma MarkedForMore(c: Entry, e: Entry, p: string, g: Group, groups: seq<Group>)
    requires MarkedFor(c, e, p, groups)
    ensures MarkedFor(c, e, p, [g] + groups)
  {
    var i :| 0 <= i < |groups| && p in groups[i].members
      && c.matchId == groups[i].matchId && c.members == groups[i].members;
    assert ([g] + groups)[i + 1] == groups[i];
  }

  lemma FirstTwoAreMarked(s: Core, fl: InFlight, id: string, p: string, groups: seq<Group>)
    requires Inv(s, fl) && |s.queue| >= 2 && p in s.queue[..2]
    ensures p in s.entries
    ensures MarkedFor(TakeOne(s, id).entries[p], s.entries[p], p, [GroupOf(s, id)] + groups)
  {
    assert p in s.queue;
    assert ([GroupOf(s, id)] + groups)[0].members == s.queue[..2];
  }

  /** Those taken are marked for their group, keeping when they came, and nobody else is touched. */
  lemma {:induction false} TakingMarks(s: Core, fl: InFlight, ids: seq<string>, p: string)
    requires Inv(s, fl) && FreshIds(ids, s, fl) && p in s.entries
    ensures var r := TakeAll(s, ids);
      && p in r.core.entries
      && if p in s.queue && p !in r.core.queue then MarkedFor(r.core.entries[p], s.entries[p], p, r.groups)
         else r.core.entries[p] == s.entries[p]
    decreases |s.queue|
  {
    if |s.queue| >= 2 && |ids| > 0 && ids[0] != "" {
      TakeOneKeepsInv(s, fl, ids[0]);
      var t := TakeOne(s, ids[0]);
      FreshIdsTail(s, fl, ids);
      TakingMarks(t, fl[ids[0] := s.queue[..2]], ids[1..], p);
      TakesFromTheFront(t, ids[1..]);
      OneMoreMarked(s, fl, ids[0], p, TakeAll(t, ids[1..]));
    }
  }

  lemma OneMoreMarked(s: Core, fl: InFlight, id: string, p: string, rest: Taken)
    requires Inv(s, fl) && |s.queue| >= 2 && p in s.entries && p in rest.core.entries
    requires forall x :: x in rest.core.queue ==> x in s.queue[2..]
    requires var t := TakeOne(s, id);
      if p in t.queue && p !in rest.core.queue
      then MarkedFor(rest.core.entries[p], t.entries[p], p, rest.groups)
      else rest.core.entries[p] == t.entries[p]
    ensures if p in s.queue && p !in rest.core.queue
      then MarkedFor(rest.core.entries[p], s.entries[p], p, [GroupOf(s, id)] + rest.groups)
      else rest.core.entries[p] == s.entries[p]
  {
    assert s.queue == s.queue[..2] + s.queue[2..];
    if p in s.queue[..2] {
      assert p !in s.queue[2..];
      FirstTwoAreMarked(s, fl, id, p, rest.groups);
    } else if p in s.queue[2..] && p !in rest.core.queue {
      MarkedForMore(rest.core.entries[p], s.entries[p], p, GroupOf(s, id), rest.groups);
    }
  }
}
