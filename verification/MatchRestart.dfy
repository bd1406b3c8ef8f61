/** A restart from any snapshot of a reachable queue. */
module MatchRestart {
  import opened Seqs
  import opened MatchCore
  import opened MatchSnapshot

  // ------------------------------------------------------------------ the stable sort

  predicate SortedByTime(xs: seq<QueuedAt>) {
    xs == [] || ((forall y :: y in xs[1..] ==> xs[0].1 <= y.1) && SortedByTime(xs[1..]))
  }

  /** The elements queued exactly at `t`, in order. */
  function At(xs: seq<QueuedAt>, t: int): seq<QueuedAt> {
    if xs == [] then [] else if xs[0].1 == t then [xs[0]] + At(xs[1..], t) else At(xs[1..], t)
  }

  predicate DistinctPlayers(xs: seq<QueuedAt>) {
    xs == [] || ((forall y :: y in xs[1..] ==> xs[0].0 != y.0) && DistinctPlayers(xs[1..]))
  }

  lemma {:induction false} InsertSortedMembers(x: QueuedAt, ys: seq<QueuedAt>)
    ensures forall y :: y in InsertSorted(x, ys) <==> y == x || y in ys
  {
    if !(ys == [] || x.1 <= ys[0].1) {
      InsertSortedMembers(x, ys[1..]);
    }
  }

  lemma {:induction false} InsertSortedSorts(x: QueuedAt, ys: seq<QueuedAt>)
    requires SortedByTime(ys)
    ensures SortedByTime(InsertSorted(x, ys))
  {
    InsertSortedMembers(x, ys);
    if !(ys == [] || x.1 <= ys[0].1) {
      InsertSortedSorts(x, ys[1..]);
      InsertSortedMembers(x, ys[1..]);
      assert InsertSorted(x, ys)[1..] == InsertSorted(x, ys[1..]);
    } else {
      assert ([x] + ys)[1..] == ys;
    }
  }

  lemma {:induction false} InsertSortedKeepsTies(x: QueuedAt, ys: seq<QueuedAt>, t: int)
    ensures At(InsertSorted(x, ys), t) == if x.1 == t then [x] + At(ys, t) else At(ys, t)
  {
    if ys == [] || x.1 <= ys[0].1 {
      assert ([x] + ys)[1..] == ys;
    } else {
      InsertSortedKeepsTies(x, ys[1..], t);
      assert InsertSorted(x, ys)[1..] == InsertSorted(x, ys[1..]);
    }
  }

  /** Sorted, and those queued at the same millisecond keep their order; so nobody is lost or added. */
  lemma {:induction false} StableSortIsStable(xs: seq<QueuedAt>, t: int)
    ensures SortedByTime(StableSort(xs))
    ensures At(StableSort(xs), t) == At(xs, t)
    ensures forall y :: y in StableSort(xs) <==> y in xs
  {
    if xs != [] {
      StableSortIsStable(xs[1..], t);
      InsertSortedSorts(xs[0], StableSort(xs[1..]));
      InsertSortedKeepsTies(xs[0], StableSort(xs[1..]), t);
      InsertSortedMembers(xs[0], StableSort(xs[1..]));
    }
  }

  lemma {:induction false} InsertKeepsDistinct(x: QueuedAt, ys: seq<QueuedAt>)
    requires DistinctPlayers(ys) && forall y :: y in ys ==> y.0 != x.0
    ensures DistinctPlayers(InsertSorted(x, ys))
  {
    if !(ys == [] || x.1 <= ys[0].1) {
      InsertKeepsDistinct(x, ys[1..]);
      InsertSortedMembers(x, ys[1..]);
      assert InsertSorted(x, ys)[1..] == InsertSorted(x, ys[1..]);
    } else {
      assert ([x] + ys)[1..] == ys;
    }
  }

  lemma {:induction false} SortKeepsDistinct(xs: seq<QueuedAt>)
    requires DistinctPlayers(xs)
    ensures DistinctPlayers(StableSort(xs))
  {
    if xs != [] {
      SortKeepsDistinct(xs[1..]);
      StableSortIsStable(xs[1..], 0);
      InsertKeepsDistinct(xs[0], StableSort(xs[1..]));
    }
  }

  // ------------------------------------------------------------------ admitting queued players

  /** The players of `xs` who are not too late, in order. */
  function InTime(xs: seq<QueuedAt>, now: int, lim: Limits): (r: seq<QueuedAt>)
    ensures |r| <= |xs|
  {
    if xs == [] then [] else if TooLate(xs[0], now, lim) then InTime(xs[1..], now, lim)
    else [xs[0]] + InTime(xs[1..], now, lim)
  }

  function Players(xs: seq<QueuedAt>): (r: seq<string>)
    ensures |r| == |xs| && forall i :: 0 <= i < |xs| ==> r[i] == xs[i].0
  {
    if xs == [] then [] else [xs[0].0] + Players(xs[1..])
  }

  function AsEntries(xs: seq<QueuedAt>): map<string, Entry> {
    if xs == [] then map[] else map[xs[0].0 := FreshEntry("", xs[0].1)] + AsEntries(xs[1..])
  }

  lemma Regroup(q: seq<string>, m: map<string, Entry>, p: string, e: Entry, ps: seq<string>, n: map<string, Entry>)
    ensures (q + [p]) + ps == q + ([p] + ps)
    ensures m[p := e] + n == m + (map[p := e] + n)
  {
  }

  lemma {:induction false} AdmitQueuedAppends(r: Rebuilt, xs: seq<QueuedAt>, now: int, lim: Limits)
    requires DistinctPlayers(xs) && forall x :: x in xs ==> x.0 !in r.core.entries
    ensures var all := AdmitAllQueued(r, xs, now, lim);
      && all.core.queue == r.core.queue + Players(InTime(xs, now, lim))
      && all.core.entries == r.core.entries + AsEntries(InTime(xs, now, lim))
      && all.core.retry == r.core.retry
      && all.report == r.report.(queued := r.report.queued + |InTime(xs, now, lim)|,
                                 timedOut := r.report.timedOut + (|xs| - |InTime(xs, now, lim)|))
    decreases |xs|
  {
    if xs == [] {
      assert r.core.queue + [] == r.core.queue;
      assert r.core.entries + map[] == r.core.entries;
    } else {
      var x := xs[0];
      var rest := InTime(xs[1..], now, lim);
      assert forall y :: y in xs[1..] ==> y.0 != x.0 && y in xs;
      AdmitQueuedAppends(AdmitQueued(r, x, now, lim), xs[1..], now, lim);
      if !TooLate(x, now, lim) {
        AdmittedHead(x, rest);
        Regroup(r.core.queue, r.core.entries, x.0, FreshEntry("", x.1), Players(rest), AsEntries(rest));
      }
    }
  }

  lemma AdmittedHead(x: QueuedAt, rest: seq<QueuedAt>)
    ensures Players([x] + rest) == [x.0] + Players(rest)
    ensures AsEntries([x] + rest) == map[x.0 := FreshEntry("", x.1)] + AsEntries(rest)
  {
    assert ([x] + rest)[1..] == rest;
  }

  lemma {:induction false} InTimeMembers(xs: seq<QueuedAt>, now: int, lim: Limits)
    ensures forall x :: x in InTime(xs, now, lim) <==> x in xs && !TooLate(x, now, lim)
  {
    if xs != [] {
      InTimeMembers(xs[1..], now, lim);
    }
  }

  lemma {:induction false} InTimeKeepsOrder(xs: seq<QueuedAt>, now: int, lim: Limits)
    requires DistinctPlayers(xs) && SortedByTime(xs)
    ensures DistinctPlayers(InTime(xs, now, lim)) && SortedByTime(InTime(xs, now, lim))
  {
    if xs != [] {
      var rest := InTime(xs[1..], now, lim);
      InTimeKeepsOrder(xs[1..], now, lim);
      InTimeMembers(xs[1..], now, lim);
      assert ([xs[0]] + rest)[1..] == rest;
    }
  }

  lemma {:induction false} AsEntriesLookup(xs: seq<QueuedAt>)
    requires DistinctPlayers(xs)
    ensures forall x :: x in xs ==> x.0 in AsEntries(xs) && AsEntries(xs)[x.0] == FreshEntry("", x.1)
    ensures forall p :: p in AsEntries(xs) ==> exists x :: x in xs && x.0 == p
  {
    if xs != [] {
      AsEntriesLookup(xs[1..]);
      forall x | x in xs ensures x.0 in AsEntries(xs) && AsEntries(xs)[x.0] == FreshEntry("", x.1) {
        if x != xs[0] {
          assert x in xs[1..];
        } else {
          assert x.0 !in AsEntries(xs[1..]);
        }
      }
      forall p | p in AsEntries(xs) ensures exists x :: x in xs && x.0 == p {
        if p in AsEntries(xs[1..]) {
          var x :| x in xs[1..] && x.0 == p;
          assert x in xs;
        } else {
          assert xs[0] in xs;
        }
      }
    }
  }

  // ------------------------------------------------------------------ admitting recorded matches

  predicate DisjointMatches(ms: seq<Match>)
    decreases |ms|
  {
    ms == [] ||
    ((forall m, p :: m in ms[1..] && p in m.members ==> p !in ms[0].members) && DisjointMatches(ms[1..]))
  }

  function OneMatch(m: Match): map<string, Entry> {
    map p | p in m.members :: RestoredMatch(m)
  }

  function MatchEntries(ms: seq<Match>, now: int, lim: Limits): map<string, Entry>
    decreases |ms|
  {
    if ms == [] then map[]
    else if Stale(ms[0], now, lim) then MatchEntries(ms[1..], now, lim)
    else OneMatch(ms[0]) + MatchEntries(ms[1..], now, lim)
  }

  /** Number of players in the matches whose results are past their time, or are not. */
  function PlayersInMatches(ms: seq<Match>, past: bool, now: int, lim: Limits): nat
    decreases |ms|
  {
    if ms == [] then 0
    else (if (now - ms[0].stamp >= lim.resultTtl) == past then |ms[0].members| else 0)
         + PlayersInMatches(ms[1..], past, now, lim)
  }

  lemma {:induction false} AdmitMatchesCounts(r: Rebuilt, ms: seq<Match>, now: int, lim: Limits)
    requires DisjointMatches(ms) && forall m, p :: m in ms && p in m.members ==> p !in r.core.entries
    ensures AdmitAllMatches(r, ms, now, lim).report
      == r.report.(matched := r.report.matched + PlayersInMatches(ms, false, now, lim),
                   expiredResults := r.report.expiredResults + PlayersInMatches(ms, true, now, lim))
    decreases |ms|
  {
    if ms != [] {
      var r1 := AdmitMatch(r, ms[0], now, lim);
      assert forall p :: p in ms[0].members ==> ms[0] in ms;
      forall m, p | m in ms[1..] && p in m.members ensures p !in r1.core.entries {
        assert m in ms;
      }
      AdmitMatchesCounts(r1, ms[1..], now, lim);
    }
  }

  lemma {:induction false} AdmitMatchesAdds(r: Rebuilt, ms: seq<Match>, now: int, lim: Limits)
    requires DisjointMatches(ms) && forall m, p :: m in ms && p in m.members ==> p !in r.core.entries
    ensures var all := AdmitAllMatches(r, ms, now, lim);
      && all.core == r.core.(entries := r.core.entries + MatchEntries(ms, now, lim))
      && all.report.dropped == r.report.dropped
    decreases |ms|
  {
    if ms == [] {
      assert r.core.entries + map[] == r.core.entries;
    } else {
      var r1 := AdmitMatch(r, ms[0], now, lim);
      assert forall p :: p in ms[0].members ==> ms[0] in ms;
      forall m, p | m in ms[1..] && p in m.members ensures p !in r1.core.entries {
        assert m in ms;
      }
      AdmitMatchesAdds(r1, ms[1..], now, lim);
      if !Stale(ms[0], now, lim) {
        assert r.core.entries + OneMatch(ms[0]) + MatchEntries(ms[1..], now, lim)
            == r.core.entries + (OneMatch(ms[0]) + MatchEntries(ms[1..], now, lim));
      }
    }
  }

  lemma {:induction false} MatchEntriesHas(ms: seq<Match>, now: int, lim: Limits, m: Match, p: string)
    requires DisjointMatches(ms) && m in ms && p in m.members && !Stale(m, now, lim)
    ensures p in MatchEntries(ms, now, lim)
    decreases |ms|
  {
    if m in ms[1..] {
      MatchEntriesHas(ms[1..], now, lim, m, p);
    }
  }

  lemma {:induction false} MatchEntriesOnly(ms: seq<Match>, now: int, lim: Limits, p: string) returns (m: Match)
    requires p in MatchEntries(ms, now, lim)
    ensures m in ms && p in m.members && !Stale(m, now, lim)
    ensures MatchEntries(ms, now, lim)[p] == RestoredMatch(m)
    decreases |ms|
  {
    if p in MatchEntries(ms[1..], now, lim) {
      m := MatchEntriesOnly(ms[1..], now, lim, p);
    } else {
      m := ms[0];
    }
  }

  // ------------------------------------------------------------------ what a snapshot lists

  lemma {:induction false} DistinctByIndex(xs: seq<QueuedAt>)
    requires forall i, j :: 0 <= i < j < |xs| ==> xs[i].0 != xs[j].0
    ensures DistinctPlayers(xs)
  {
    if xs != [] {
      DistinctByIndex(xs[1..]);
    }
  }

  lemma {:induction false} DisjointByIndex(ms: seq<Match>)
    requires forall i, j, p :: 0 <= i < j < |ms| && p in ms[j].members ==> p !in ms[i].members
    ensures DisjointMatches(ms)
    decreases |ms|
  {
    if ms != [] {
      DisjointByIndex(ms[1..]);
    }
  }

  predicate ListedQueued(s: Core, p: string) {
    p in s.entries && s.entries[p].status.Queued? && !s.entries[p].cancelRequested
  }

  lemma StampedMembers(s: Core)
    requires QueueOk(s)
    ensures var front := Stamped(s.queue, s.entries);
      && (forall x :: x in front <==> x.0 in s.queue && x.1 == s.entries[x.0].queuedAt)
      && (forall i, j :: 0 <= i < j < |front| ==> front[i].0 != front[j].0)
  {
    var front := Stamped(s.queue, s.entries);
    forall x: QueuedAt | x.0 in s.queue && x.1 == s.entries[x.0].queuedAt ensures x in front {
      var i :| 0 <= i < |s.queue| && s.queue[i] == x.0;
      assert front[i] == x;
    }
  }

  lemma SnapshotListsQueued(s: Core, fl: InFlight, snap: Snapshot)
    requires Inv(s, fl) && IsSnapshotOf(snap, s)
    ensures forall x :: x in snap.queued ==> ListedQueued(s, x.0) && x.1 == s.entries[x.0].queuedAt
    ensures forall p :: ListedQueued(s, p) ==> (p, s.entries[p].queuedAt) in snap.queued
  {
    var front, tail := snap.queued[..|s.queue|], snap.queued[|s.queue|..];
    assert snap.queued == front + tail;
    StampedMembers(s);
    forall p | ListedQueued(s, p) ensures (p, s.entries[p].queuedAt) in snap.queued {
      assert EntryOk(p, s, fl);
      if s.entries[p].allocating {
        assert (p, s.entries[p].queuedAt) in tail;
      } else {
        assert (p, s.entries[p].queuedAt) in front;
      }
    }
  }

  lemma SnapshotPlayersDistinct(s: Core, fl: InFlight, snap: Snapshot)
    requires Inv(s, fl) && IsSnapshotOf(snap, s)
    ensures DistinctPlayers(snap.queued)
  {
    var front, tail := snap.queued[..|s.queue|], snap.queued[|s.queue|..];
    assert snap.queued == front + tail;
    StampedMembers(s);
    DistinctConcat(front, tail);
  }

  lemma DistinctConcat(front: seq<QueuedAt>, tail: seq<QueuedAt>)
    requires forall i, j :: 0 <= i < j < |front| ==> front[i].0 != front[j].0
    requires forall i, j :: 0 <= i < j < |tail| ==> tail[i].0 != tail[j].0
    requires forall x, y :: x in front && y in tail ==> x.0 != y.0
    ensures DistinctPlayers(front + tail)
  {
    var xs := front + tail;
    forall i, j | 0 <= i < j < |xs| ensures xs[i].0 != xs[j].0 {
      if i < |front| <= j {
        assert xs[i] in front && xs[j] in tail;
      }
    }
    DistinctByIndex(xs);
  }

  predicate IsMatched(s: Core, p: string) {
    p in s.entries && s.entries[p].status.Matched?
  }

  lemma ListedMatchesAreRecorded(s: Core, fl: InFlight, snap: Snapshot)
    requires Inv(s, fl) && IsSnapshotOf(snap, s)
    ensures forall m, p :: m in snap.matched && p in m.members ==> IsMatched(s, p) && MatchOf(s.entries[p]) == m
  {
    forall m, p | m in snap.matched && p in m.members ensures IsMatched(s, p) && MatchOf(s.entries[p]) == m {
      ListedMatchIsRecorded(s, fl, snap, m, p);
    }
  }

  lemma ListedMatchesDisjoint(s: Core, fl: InFlight, snap: Snapshot)
    requires Inv(s, fl) && IsSnapshotOf(snap, s)
    ensures DisjointMatches(snap.matched)
  {
    ListedMatchesAreRecorded(s, fl, snap);
    forall i, j, p | 0 <= i < j < |snap.matched| && p in snap.matched[j].members
      ensures p !in snap.matched[i].members
    {
      assert snap.matched[i] in snap.matched && snap.matched[j] in snap.matched;
    }
    DisjointByIndex(snap.matched);
  }

  lemma RecordedMatchListed(s: Core, fl: InFlight, snap: Snapshot, p: string)
    requires Inv(s, fl) && IsSnapshotOf(snap, s) && IsMatched(s, p)
    ensures MatchOf(s.entries[p]) in snap.matched && p in s.entries[p].members
  {
    assert EntryOk(p, s, fl);
  }

  // ------------------------------------------------------------------ the restart

  /** Restored as waiting: still in the game, no cancel on record, and not too late even counting the downtime. */
  predicate ComesBackQueued(s: Core, p: string, now: int, lim: Limits) {
    ListedQueued(s, p) && !Overdue(s.entries[p], now, lim)
  }

  predicate ComesBackMatched(s: Core, p: string, now: int, lim: Limits) {
    IsMatched(s, p) && now - s.entries[p].stamp < lim.resultTtl
  }

  /** Who is where after a restart, before the final sweep. */
  ghost predicate RestartedFrom(r: Core, s: Core, now: int, lim: Limits) {
    && (forall p :: p in r.queue <==> ComesBackQueued(s, p, now, lim))
    && (forall p :: p in r.entries <==> ComesBackQueued(s, p, now, lim) || ComesBackMatched(s, p, now, lim))
    && (forall p :: ComesBackQueued(s, p, now, lim) ==>
          var since := s.entries[p].queuedAt;
          r.entries[p] == Entry(Queued, "", "", "", [], since, since, false, false))
    && (forall p :: ComesBackMatched(s, p, now, lim) ==>
          var e := s.entries[p];
          r.entries[p] == Entry(Matched, "", e.matchId, e.roomId, e.members, 0, e.stamp, false, false))
  }

  function BeforeSweep(snap: Snapshot, now: int, lim: Limits): Core {
    Core(Players(Kept(snap, now, lim)), AsEntries(Kept(snap, now, lim)) + MatchEntries(snap.matched, now, lim),
         false)
  }

  function Kept(snap: Snapshot, now: int, lim: Limits): seq<QueuedAt> {
    InTime(StableSort(snap.queued), now, lim)
  }

  lemma KeptPlayers(s: Core, fl: InFlight, snap: Snapshot, now: int, lim: Limits)
    requires Inv(s, fl) && IsSnapshotOf(snap, s)
    ensures DistinctPlayers(StableSort(snap.queued)) && DistinctPlayers(Kept(snap, now, lim))
    ensures forall x :: x in Kept(snap, now, lim) ==>
      ComesBackQueued(s, x.0, now, lim) && x.1 == s.entries[x.0].queuedAt
    ensures forall p :: ComesBackQueued(s, p, now, lim) ==> (p, s.entries[p].queuedAt) in Kept(snap, now, lim)
  {
    SnapshotListsQueued(s, fl, snap);
    SnapshotPlayersDistinct(s, fl, snap);
    SortKeepsDistinct(snap.queued);
    StableSortIsStable(snap.queued, 0);
    InTimeMembers(StableSort(snap.queued), now, lim);
    InTimeKeepsOrder(StableSort(snap.queued), now, lim);
  }

  lemma KeptEntries(s: Core, fl: InFlight, snap: Snapshot, now: int, lim: Limits)
    requires Inv(s, fl) && IsSnapshotOf(snap, s)
    ensures var es := AsEntries(Kept(snap, now, lim));
      && (forall p :: p in es <==> ComesBackQueued(s, p, now, lim))
      && (forall p :: p in es ==> es[p] == FreshEntry("", s.entries[p].queuedAt))
    ensures forall p :: p in Players(Kept(snap, now, lim)) <==> ComesBackQueued(s, p, now, lim)
  {
    var kept := Kept(snap, now, lim);
    KeptPlayers(s, fl, snap, now, lim);
    AsEntriesLookup(kept);
    forall p ensures p in AsEntries(kept) <==> ComesBackQueued(s, p, now, lim) {
      if p in AsEntries(kept) {
        var x :| x in kept && x.0 == p;
      }
      if ComesBackQueued(s, p, now, lim) {
        assert (p, s.entries[p].queuedAt) in kept;
      }
    }
    forall p ensures p in Players(kept) <==> ComesBackQueued(s, p, now, lim) {
      if p in Players(kept) {
        var i :| 0 <= i < |kept| && Players(kept)[i] == p;
        assert kept[i] in kept;
      }
      if ComesBackQueued(s, p, now, lim) {
        var i :| 0 <= i < |kept| && kept[i] == (p, s.entries[p].queuedAt);
        assert Players(kept)[i] == p;
      }
    }
  }

  lemma KeptMatches(s: Core, fl: InFlight, snap: Snapshot, now: int, lim: Limits)
    requires Inv(s, fl) && IsSnapshotOf(snap, s)
    ensures var es := MatchEntries(snap.matched, now, lim);
      && (forall p :: p in es <==> ComesBackMatched(s, p, now, lim))
      && (forall p :: p in es ==> es[p] == RestoredMatch(MatchOf(s.entries[p])))
  {
    var es := MatchEntries(snap.matched, now, lim);
    forall p | p in es ensures ComesBackMatched(s, p, now, lim) && es[p] == RestoredMatch(MatchOf(s.entries[p])) {
      var m := MatchEntriesOnly(snap.matched, now, lim, p);
      ListedMatchIsRecorded(s, fl, snap, m, p);
    }
    ListedMatchesDisjoint(s, fl, snap);
    forall p | ComesBackMatched(s, p, now, lim) ensures p in es {
      RecordedMatchListed(s, fl, snap, p);
      MatchEntriesHas(snap.matched, now, lim, MatchOf(s.entries[p]), p);
    }
  }

  lemma ListedMatchIsRecorded(s: Core, fl: InFlight, snap: Snapshot, m: Match, p: string)
    requires Inv(s, fl) && IsSnapshotOf(snap, s) && m in snap.matched && p in m.members
    ensures IsMatched(s, p) && MatchOf(s.entries[p]) == m
  {
    assert Recorded(m, s);
    assert EntryOk(m.members[0], s, fl);
  }

  lemma RestoreBuilds(s: Core, fl: InFlight, snap: Snapshot, bad: nat, now: int, lim: Limits)
    requires Inv(s, fl) && IsSnapshotOf(snap, s)
    ensures Restore(EmptyCore, snap, bad, now, lim).core == Sweep(BeforeSweep(snap, now, lim), now, lim)
    ensures Restore(EmptyCore, snap, bad, now, lim).report.dropped == bad
    ensures var r1 := AdmitAllQueued(Rebuilt(EmptyCore, Report(0, 0, bad, 0, 0)), StableSort(snap.queued), now, lim);
      AdmitAllMatches(r1, snap.matched, now, lim).core == BeforeSweep(snap, now, lim)
  {
    var sorted := StableSort(snap.queued);
    KeptPlayers(s, fl, snap, now, lim);
    var r0 := Rebuilt(EmptyCore, Report(0, 0, bad, 0, 0));
    AdmitQueuedAppends(r0, sorted, now, lim);
    var r1 := AdmitAllQueued(r0, sorted, now, lim);
    assert r1.core.entries == AsEntries(Kept(snap, now, lim));
    assert r1.core.queue == Players(Kept(snap, now, lim));
    KeptEntries(s, fl, snap, now, lim);
    MatchesAreAdded(s, fl, snap, r1, now, lim);
  }

  lemma MatchesAreAdded(s: Core, fl: InFlight, snap: Snapshot, r: Rebuilt, now: int, lim: Limits)
    requires Inv(s, fl) && IsSnapshotOf(snap, s)
    requires forall p :: p in r.core.entries ==> !IsMatched(s, p)
    ensures var all := AdmitAllMatches(r, snap.matched, now, lim);
      && all.core == r.core.(entries := r.core.entries + MatchEntries(snap.matched, now, lim))
      && all.report.dropped == r.report.dropped
  {
    ListedMatchesAreRecorded(s, fl, snap);
    ListedMatchesDisjoint(s, fl, snap);
    forall m, p | m in snap.matched && p in m.members ensures p !in r.core.entries {
      assert IsMatched(s, p);
    }
    AdmitMatchesAdds(r, snap.matched, now, lim);
  }

  lemma BeforeSweepIsRestart(s: Core, fl: InFlight, snap: Snapshot, now: int, lim: Limits)
    requires Inv(s, fl) && IsSnapshotOf(snap, s)
    ensures RestartedFrom(BeforeSweep(snap, now, lim), s, now, lim)
    ensures NoDup(BeforeSweep(snap, now, lim).queue)
  {
    KeptPlayers(s, fl, snap, now, lim);
    PlayersNoDup(Kept(snap, now, lim));
    KeptEntries(s, fl, snap, now, lim);
    KeptMatches(s, fl, snap, now, lim);
  }

  lemma {:induction false} PlayersNoDup(xs: seq<QueuedAt>)
    requires DistinctPlayers(xs)
    ensures NoDup(Players(xs))
  {
    if xs != [] {
      PlayersNoDup(xs[1..]);
      forall i | 0 <= i < |xs[1..]| ensures Players(xs[1..])[i] != xs[0].0 {
        assert xs[1..][i] in xs[1..];
      }
    }
  }

  lemma RestartedKeepsInv(s: Core, fl: InFlight, r: Core, now: int, lim: Limits)
    requires Inv(s, fl) && RestartedFrom(r, s, now, lim) && NoDup(r.queue)
    ensures Inv(r, map[])
  {
    forall p | p in r.entries ensures EntryOk(p, r, map[]) {
      assert EntryOk(p, s, fl);
      if ComesBackMatched(s, p, now, lim) {
        RestoredAgrees(s, fl, r, now, lim, p);
      }
    }
  }

  lemma RestoredAgrees(s: Core, fl: InFlight, r: Core, now: int, lim: Limits, p: string)
    requires Inv(s, fl) && RestartedFrom(r, s, now, lim) && ComesBackMatched(s, p, now, lim)
    ensures MatchedAgrees(p, r)
  {
    assert EntryOk(p, s, fl);
    forall q | q in s.entries[p].members
      ensures q in r.entries && r.entries[q] == RestoredMatch(MatchOf(s.entries[p]))
    {
      assert ComesBackMatched(s, q, now, lim);
    }
  }

  lemma RestartedSweepIsNoop(s: Core, r: Core, now: int, lim: Limits)
    requires RestartedFrom(r, s, now, lim)
    ensures Sweep(r, now, lim) == r
  {
    assert OverdueSet(r, now, lim) == {};
    WithoutKeepsAll(r.queue, {});
    forall p | p in r.entries ensures TimeOutOne(p, r, now, lim) == r.entries[p] && !Expired(r.entries[p], now, lim) {
    }
  }

  /** Restoring any snapshot of a reachable queue puts exactly the right players where they belong, in
      the order of a stable sort by waiting time; the sweep that follows finds nothing to do. */
  lemma RestartSimulation(s: Core, fl: InFlight, snap: Snapshot, now: int, lim: Limits)
    requires Inv(s, fl) && IsSnapshotOf(snap, s)
    ensures var r := Restore(EmptyCore, snap, 0, now, lim).core;
      && RestartedFrom(r, s, now, lim)
      && r.queue == Players(Kept(snap, now, lim))
      && r == BeforeSweep(snap, now, lim)
      && Inv(r, map[])
    ensures Restore(EmptyCore, snap, 0, now, lim).report.dropped == 0
  {
    RestoreBuilds(s, fl, snap, 0, now, lim);
    BeforeSweepIsRestart(s, fl, snap, now, lim);
    RestartedKeepsInv(s, fl, BeforeSweep(snap, now, lim), now, lim);
    RestartedSweepIsNoop(s, BeforeSweep(snap, now, lim), now, lim);
  }

  lemma {:induction false} InsertAddsOne(x: QueuedAt, ys: seq<QueuedAt>)
    ensures |InsertSorted(x, ys)| == |ys| + 1
  {
    if ys != [] && x.1 > ys[0].1 {
      InsertAddsOne(x, ys[1..]);
    }
  }

  lemma {:induction false} SortKeepsLength(xs: seq<QueuedAt>)
    ensures |StableSort(xs)| == |xs|
  {
    if xs != [] {
      SortKeepsLength(xs[1..]);
      InsertAddsOne(xs[0], StableSort(xs[1..]));
    }
  }

  /** The report of a start counts what became of every row: players waiting again, players who had waited too
      long, players matched again, players whose results were past their time, and rows that could not be used. */
  lemma ReportCountsEveryRow(s: Core, fl: InFlight, snap: Snapshot, bad: nat, now: int, lim: Limits)
    requires Inv(s, fl) && IsSnapshotOf(snap, s)
    ensures var r := Restore(EmptyCore, snap, bad, now, lim);
      && r.report.dropped == bad
      && r.report.queued == |r.core.queue| && r.report.queued + r.report.timedOut == |snap.queued|
      && r.report.matched == PlayersInMatches(snap.matched, false, now, lim)
      && r.report.expiredResults == PlayersInMatches(snap.matched, true, now, lim)
  {
    RestoredQueue(s, fl, snap, bad, now, lim);
    QueuedAreCounted(s, fl, snap, bad, now, lim);
    MatchesAreCounted(s, fl, snap, AdmittedQueue(snap, bad, now, lim), now, lim);
  }

  /** A start once it has admitted the queue. */
  function AdmittedQueue(snap: Snapshot, bad: nat, now: int, lim: Limits): Rebuilt {
    AdmitAllQueued(Rebuilt(EmptyCore, Report(0, 0, bad, 0, 0)), StableSort(snap.queued), now, lim)
  }

  lemma RestoredQueue(s: Core, fl: InFlight, snap: Snapshot, bad: nat, now: int, lim: Limits)
    requires Inv(s, fl) && IsSnapshotOf(snap, s)
    ensures |Restore(EmptyCore, snap, bad, now, lim).core.queue| == |Kept(snap, now, lim)|
  {
    RestoreBuilds(s, fl, snap, bad, now, lim);
    BeforeSweepIsRestart(s, fl, snap, now, lim);
    RestartedSweepIsNoop(s, BeforeSweep(snap, now, lim), now, lim);
  }

  lemma QueuedAreCounted(s: Core, fl: InFlight, snap: Snapshot, bad: nat, now: int, lim: Limits)
    requires Inv(s, fl) && IsSnapshotOf(snap, s)
    ensures var kept, r := Kept(snap, now, lim), AdmittedQueue(snap, bad, now, lim);
      && r.core.entries == AsEntries(kept) && |kept| <= |snap.queued|
      && r.report == Report(|kept|, 0, bad, |snap.queued| - |kept|, 0)
  {
    KeptPlayers(s, fl, snap, now, lim);
    AdmitQueuedAppends(Rebuilt(EmptyCore, Report(0, 0, bad, 0, 0)), StableSort(snap.queued), now, lim);
    SortKeepsLength(snap.queued);
    assert map[] + AsEntries(Kept(snap, now, lim)) == AsEntries(Kept(snap, now, lim));
  }

  lemma MatchesAreCounted(s: Core, fl: InFlight, snap: Snapshot, r: Rebuilt, now: int, lim: Limits)
    requires Inv(s, fl) && IsSnapshotOf(snap, s)
    requires r.core.entries == AsEntries(Kept(snap, now, lim))
    ensures AdmitAllMatches(r, snap.matched, now, lim).report
      == r.report.(matched := r.report.matched + PlayersInMatches(snap.matched, false, now, lim),
                   expiredResults := r.report.expiredResults + PlayersInMatches(snap.matched, true, now, lim))
  {
    KeptEntries(s, fl, snap, now, lim);
    ListedMatchesAreRecorded(s, fl, snap);
    ListedMatchesDisjoint(s, fl, snap);
    forall m, p | m in snap.matched && p in m.members ensures p !in r.core.entries {
      assert IsMatched(s, p);
    }
    AdmitMatchesCounts(r, snap.matched, now, lim);
  }
}
