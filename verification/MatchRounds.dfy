/** A pairing round that runs with nobody else between its phases and fails every allocation. */
module MatchRounds {
  import opened Seqs
  import opened MatchCore

  /** Phases two and three of one round with nobody else running: commit the groups in order. */
  function CommitAll(s: Core, gs: seq<Group>, rooms: seq<string>, now: int): Core
    requires |rooms| == |gs|
    decreases |gs|
  {
    if gs == [] then s else CommitAll(Commit(s, gs[0], rooms[0], now), gs[1..], rooms[1..], now)
  }

  function MembersOf(gs: seq<Group>): (r: seq<seq<string>>)
    ensures |r| == |gs|
    decreases |gs|
  {
    if gs == [] then [] else [gs[0].members] + MembersOf(gs[1..])
  }

  function AllMembers(gs: seq<Group>): set<string>
    decreases |gs|
  {
    if gs == [] then {} else (set p | p in gs[0].members) + AllMembers(gs[1..])
  }

  /** Taking groups only moves players from the front of the queue into them. */
  lemma {:induction false} TakeAllSplitsQueue(s: Core, fl: InFlight, ids: seq<string>)
    requires Inv(s, fl) && FreshIds(ids, s, fl)
    ensures var r := TakeAll(s, ids);
      && s.queue == Flatten(MembersOf(r.groups)) + r.core.queue
      && r.core.retry == s.retry
      && (forall p :: p in AllMembers(r.groups) ==> p in s.queue)
    decreases |s.queue|
  {
    if |s.queue| >= 2 && |ids| > 0 && ids[0] != "" {
      TakeOneKeepsInv(s, fl, ids[0]);
      var t := TakeOne(s, ids[0]);
      FreshIdsTail(s, fl, ids);
      TakeAllSplitsQueue(t, fl[ids[0] := s.queue[..2]], ids[1..]);
      var rest := TakeAll(t, ids[1..]);
      assert TakeAll(s, ids).groups[1..] == rest.groups;
      Prepend(s.queue, s.queue[..2], t.queue, Flatten(MembersOf(rest.groups)), rest.core.queue);
    }
  }

  lemma Prepend(q: seq<string>, a: seq<string>, t: seq<string>, b: seq<string>, c: seq<string>)
    requires t == b + c && q == a + t
    ensures q == a + b + c
  {
  }

  /** `t` is `s` with the players of `taken` marked; returning one of them restores its entry. */
  ghost predicate Restorable(s: Core, t: Core, taken: set<string>) {
    && t.entries.Keys == s.entries.Keys
    && forall p :: p in s.entries ==>
         if p in taken then Returned(t.entries[p]) == s.entries[p] && !t.entries[p].cancelRequested
         else t.entries[p] == s.entries[p]
  }

  lemma TakeOneRestorable(s: Core, fl: InFlight, id: string)
    requires Inv(s, fl) && |s.queue| >= 2
    ensures Restorable(s, TakeOne(s, id), set p | p in s.queue[..2])
  {
    forall p | p in s.queue[..2] ensures Waiting(s.entries[p]) {
      assert p in s.queue;
    }
  }

  lemma {:induction false} TakeAllRestorable(s: Core, fl: InFlight, ids: seq<string>)
    requires Inv(s, fl) && FreshIds(ids, s, fl)
    ensures Restorable(s, TakeAll(s, ids).core, AllMembers(TakeAll(s, ids).groups))
    decreases |s.queue|
  {
    if |s.queue| >= 2 && |ids| > 0 && ids[0] != "" {
      TakeOneKeepsInv(s, fl, ids[0]);
      TakeOneRestorable(s, fl, ids[0]);
      var t := TakeOne(s, ids[0]);
      FreshIdsTail(s, fl, ids);
      TakeAllRestorable(t, fl[ids[0] := s.queue[..2]], ids[1..]);
      TakeAllSplitsQueue(t, fl[ids[0] := s.queue[..2]], ids[1..]);
      var rest := TakeAll(t, ids[1..]);
      assert TakeAll(s, ids).groups[1..] == rest.groups;
      assert AllMembers(TakeAll(s, ids).groups) == (set p | p in s.queue[..2]) + AllMembers(rest.groups);
      assert forall p :: p in AllMembers(rest.groups) ==> p !in s.queue[..2];
    }
  }

  lemma {:induction false} FlattenConcat(a: seq<seq<string>>, b: seq<seq<string>>)
    ensures Flatten(a + b) == Flatten(a) + Flatten(b)
  {
    if a == [] {
      assert a + b == b;
    } else {
      assert (a + b)[1..] == a[1..] + b;
      FlattenConcat(a[1..], b);
    }
  }

  lemma FailedCommit(t: Core, g: Group, now: int)
    requires forall p :: p in g.members ==> p in t.entries && !t.entries[p].cancelRequested
    ensures var u := Commit(t, g, "", now);
      && u.queue == g.members + t.queue
      && u.retry
      && u.entries.Keys == t.entries.Keys
      && forall p :: p in t.entries ==>
           u.entries[p] == if p in g.members then Returned(t.entries[p]) else t.entries[p]
  {
    assert CancelledOf(t, g) == {} && MissingOf(t, g) == {};
    assert CancelledOf(t, g) + MissingOf(t, g) == {};
    WithoutKeepsAll(g.members, {});
  }

  /** Committing groups whose allocations all failed puts each in front of the one before. */
  lemma {:induction false} FailedCommitsPushFront(t: Core, gs: seq<Group>, rooms: seq<string>, now: int)
    requires |rooms| == |gs| && forall i :: 0 <= i < |rooms| ==> rooms[i] == ""
    requires forall p :: p in AllMembers(gs) ==> p in t.entries && !t.entries[p].cancelRequested
    ensures var r := CommitAll(t, gs, rooms, now);
      && r.queue == Flatten(Reverse(MembersOf(gs))) + t.queue
      && r.retry == (t.retry || gs != [])
      && r.entries.Keys == t.entries.Keys
      && (forall p :: p in t.entries ==>
            r.entries[p] == if p in AllMembers(gs) then Returned(t.entries[p]) else t.entries[p])
    decreases |gs|
  {
    if gs != [] {
      FailedCommit(t, gs[0], now);
      FailedCommitsPushFront(Commit(t, gs[0], "", now), gs[1..], rooms[1..], now);
      var back := Reverse(MembersOf(gs[1..]));
      FlattenConcat(back, [gs[0].members]);
      assert Flatten([gs[0].members]) == gs[0].members;
      assert Reverse(MembersOf(gs)) == back + [gs[0].members];
    }
  }

  /** A round that fails every allocation loses nobody and changes no entry; it reverses the order of
      its groups at the front of the queue and asks for a retry. */
  lemma FailedRound(s: Core, fl: InFlight, ids: seq<string>, rooms: seq<string>, now: int)
    requires Inv(s, fl) && FreshIds(ids, s, fl)
    requires |rooms| == |TakeAll(s, ids).groups| && forall i :: 0 <= i < |rooms| ==> rooms[i] == ""
    ensures var r := TakeAll(s, ids);
      var after := CommitAll(r.core, r.groups, rooms, now);
      && s.queue == Flatten(MembersOf(r.groups)) + r.core.queue
      && after.queue == Flatten(Reverse(MembersOf(r.groups))) + r.core.queue
      && after.entries == s.entries
      && after.retry == (s.retry || r.groups != [])
  {
    var r := TakeAll(s, ids);
    TakeAllSplitsQueue(s, fl, ids);
    TakeAllRestorable(s, fl, ids);
    FailedEntries(s, r.core, r.groups, rooms, now);
  }

  lemma FailedEntries(s: Core, t: Core, gs: seq<Group>, rooms: seq<string>, now: int)
    requires Restorable(s, t, AllMembers(gs)) && forall p :: p in AllMembers(gs) ==> p in s.entries
    requires |rooms| == |gs| && forall i :: 0 <= i < |rooms| ==> rooms[i] == ""
    ensures var after := CommitAll(t, gs, rooms, now);
      && after.queue == Flatten(Reverse(MembersOf(gs))) + t.queue
      && after.entries == s.entries
      && after.retry == (t.retry || gs != [])
  {
    FailedCommitsPushFront(t, gs, rooms, now);
  }

  /** The queue keeps its order through a failed round exactly when the round took at most one group. */
  lemma FailedRoundKeepsFifo(s: Core, fl: InFlight, ids: seq<string>, rooms: seq<string>, now: int)
    requires Inv(s, fl) && FreshIds(ids, s, fl)
    requires |rooms| == |TakeAll(s, ids).groups| && forall i :: 0 <= i < |rooms| ==> rooms[i] == ""
    ensures var r := TakeAll(s, ids);
      CommitAll(r.core, r.groups, rooms, now).queue == s.queue <==> |r.groups| <= 1
  {
    FailedRound(s, fl, ids, rooms, now);
    var r := TakeAll(s, ids);
    var ms := MembersOf(r.groups);
    if |ms| == 1 {
      assert Reverse(ms) == ms;
    } else if |ms| > 1 {
      TakenArePairs(s, ids);
      ReverseStartsWithLast(ms);
      assert Flatten(Reverse(ms)) == Reverse(ms)[0] + Flatten(Reverse(ms)[1..]);
      LastPairLater(ms);
      var k := |Flatten(ms)| - 2;
      assert s.queue[k] == ms[|ms| - 1][0];
      assert CommitAll(r.core, r.groups, rooms, now).queue[0] == ms[|ms| - 1][0];
      assert s.queue[0] != s.queue[k];
    }
  }

  /** Players who came one after the other. */
  function AllWaiting(q: seq<string>, r: string, now: int): Core {
    Core(q, map p | p in q :: FreshEntry(r, now), false)
  }

  lemma AllWaitingInv(q: seq<string>, r: string, now: int, m: string, n: string)
    requires NoDup(q) && m != n
    ensures Inv(AllWaiting(q, r, now), map[]) && FreshIds([m, n], AllWaiting(q, r, now), map[])
  {
  }

  lemma FourAreTaken(a: string, b: string, c: string, d: string, r: string, now: int, m: string, n: string)
    requires NoDup([a, b, c, d]) && m != "" && n != ""
    ensures var s := AllWaiting([a, b, c, d], r, now);
      && (forall p :: p in s.queue ==> p in s.entries)
      && TakeAll(s, [m, n]).groups == [Group(m, [a, b], r), Group(n, [c, d], r)]
      && TakeAll(s, [m, n]).core.queue == []
  {
    var s := AllWaiting([a, b, c, d], r, now);
    var q := [a, b, c, d];
    assert q[0] == a && q[1] == b && q[2] == c && q[3] == d;
    assert q[..2] == [a, b] && q[2..] == [c, d] && [c, d][..2] == [c, d] && [c, d][2..] == [] && [m, n][1..] == [n];
    var t := TakeOne(s, m);
    assert t.entries[c] == FreshEntry(r, now);
    assert TakeAll(t, [n]).groups == [GroupOf(t, n)] + TakeAll(TakeOne(t, n), [n][1..]).groups;
    assert TakeAll(TakeOne(t, n), [n][1..]) == Taken(TakeOne(t, n), []);
  }

  /** Four players wait and both allocations of a round fail: the two who came last are first now. */
  lemma FourPlayersChangeOrder(a: string, b: string, c: string, d: string, r: string, now: int, m: string, n: string)
    requires NoDup([a, b, c, d]) && m != "" && n != "" && m != n
    ensures var s := AllWaiting([a, b, c, d], r, now);
      && Inv(s, map[]) && FreshIds([m, n], s, map[])
      && var taken := TakeAll(s, [m, n]);
         |taken.groups| == 2 && CommitAll(taken.core, taken.groups, ["", ""], now).queue == [c, d, a, b]
  {
    AllWaitingInv([a, b, c, d], r, now, m, n);
    FourAreTaken(a, b, c, d, r, now, m, n);
    FailedRound(AllWaiting([a, b, c, d], r, now), map[], [m, n], ["", ""], now);
    MembersOfTwo(Group(m, [a, b], r), Group(n, [c, d], r));
    TwoGroupsSwap([a, b], [c, d]);
  }

  lemma MembersOfTwo(g: Group, h: Group)
    ensures MembersOf([g, h]) == [g.members, h.members]
  {
    assert [g, h][1..] == [h] && [h][1..] == [];
    assert MembersOf([h]) == [h.members];
  }

  lemma TwoGroupsSwap(x: seq<string>, y: seq<string>)
    ensures Flatten(Reverse([x, y])) == y + x
  {
    assert [x, y][1..] == [y] && [y][1..] == [];
    assert Reverse([y]) == [y];
    assert Reverse([x, y]) == [y, x];
    assert [y, x][1..] == [x] && [x][1..] == [];
    assert Flatten([x]) == x;
  }

  lemma {:induction false} TakenArePairs(s: Core, ids: seq<string>)
    requires forall p :: p in s.queue ==> p in s.entries
    ensures forall i :: 0 <= i < |TakeAll(s, ids).groups| ==> |MembersOf(TakeAll(s, ids).groups)[i]| == 2
    decreases |s.queue|
  {
    if |s.queue| >= 2 && |ids| > 0 && ids[0] != "" {
      TakenArePairs(TakeOne(s, ids[0]), ids[1..]);
      assert TakeAll(s, ids).groups[1..] == TakeAll(TakeOne(s, ids[0]), ids[1..]).groups;
    }
  }

  lemma {:induction false} ReverseStartsWithLast<T>(xs: seq<T>)
    requires xs != []
    ensures Reverse(xs)[0] == xs[|xs| - 1]
  {
    if |xs| > 1 {
      ReverseStartsWithLast(xs[1..]);
    }
  }

  /** In a concatenation of pairs, the head of the last pair stands later than position 0. */
  lemma {:induction false} LastPairLater(ms: seq<seq<string>>)
    requires |ms| > 1 && forall i :: 0 <= i < |ms| ==> |ms[i]| == 2
    ensures |Flatten(ms)| > 2 && Flatten(ms)[|Flatten(ms)| - 2] == ms[|ms| - 1][0]
  {
    if |ms| > 2 {
      LastPairLater(ms[1..]);
    } else {
      assert ms[1..] == [ms[1]] && [ms[1]][1..] == [];
      assert Flatten([ms[1]]) == ms[1];
      assert Flatten(ms) == ms[0] + ms[1];
    }
  }

  // ------------------------------------------------------------------ groups given up because of a cancel

  predicate OneCancelled(s: Core, g: Group) {
    && |g.members| == 2 && g.members[0] in s.entries && g.members[1] in s.entries
    && s.entries[g.members[0]].cancelRequested != s.entries[g.members[1]].cancelRequested
  }

  lemma KeptOfPair(s: Core, g: Group)
    requires Pair(g.members) && g.members[0] in s.entries && g.members[1] in s.entries
    ensures MissingOf(s, g) == {}
    ensures |Without(g.members, CancelledOf(s, g))|
      == (if s.entries[g.members[0]].cancelRequested then 0 else 1)
       + (if s.entries[g.members[1]].cancelRequested then 0 else 1)
  {
    var gone := CancelledOf(s, g);
    var tail := g.members[1..];
    assert tail == [g.members[1]] && tail[1..] == [];
    assert Without(tail[1..], gone) == [];
    assert Without(tail, gone) == if g.members[1] in gone then [] else [g.members[1]];
  }

  /** A commit leaves two or more players waiting where there were fewer before, with no retry pending,
      exactly when a room was found, one of the two players had cancelled, one other player was waiting
      and no retry was pending already. */
  lemma CommitStrandsPairIff(s: Core, fl: InFlight, g: Group, room: string, now: int)
    requires Inv(s, fl) && Held(g.matchId, g.members, s)
    ensures var t := Commit(s, g, room, now);
      (|s.queue| < 2 <= |t.queue| && !t.retry)
      <==> (room != "" && OneCancelled(s, g) && |s.queue| == 1 && !s.retry)
  {
    KeptOfPair(s, g);
    var gone := CancelledOf(s, g);
    assert gone + {} == gone;
    assert g.members[0] in gone <==> s.entries[g.members[0]].cancelRequested;
    assert g.members[1] in gone <==> s.entries[g.members[1]].cancelRequested;
  }
}
