/** Legal runs of the match queue's threads, from any start with an empty queue, that show what the theorems allow. */
module MatchExamples {
  import opened Wrappers
  import opened Seqs
  import opened MatchCore
  import opened MatchSnapshot
  import opened MatchProtocol
  import opened MatchTheorems
  import opened MatchRounds
  import opened MatchStranded

  // ------------------------------------------------------------------ putting runs together

  ghost predicate Goes(s: Sys, lim: Limits, ev: Event, q: Sys) {
    SysInv(s) && Enabled(s, ev) && Step(s, lim, ev) == q
  }

  ghost predicate Leads(s: Sys, lim: Limits, evs: seq<Event>, q: Sys) {
    SysInv(s) && Legal(s, lim, evs) && Run(s, lim, evs) == q
  }

  lemma Onward(s: Sys, lim: Limits, ev: Event, q: Sys)
    requires Goes(s, lim, ev, q)
    ensures SysInv(q) && Leads(s, lim, [ev], q)
  {
    StepKeepsInv(s, lim, ev);
    assert [ev][1..] == [];
  }

  lemma {:induction false} RunsJoin(s: Sys, lim: Limits, evs: seq<Event>, q: Sys, more: seq<Event>, last: Sys)
    requires Leads(s, lim, evs, q) && Leads(q, lim, more, last)
    ensures Leads(s, lim, evs + more, last)
    decreases |evs|
  {
    if evs == [] {
      assert evs + more == more;
    } else {
      StepKeepsInv(s, lim, evs[0]);
      RunsJoin(Step(s, lim, evs[0]), lim, evs[1..], q, more, last);
      assert (evs + more)[1..] == evs[1..] + more;
    }
  }

  /** A run in which nobody has used the worker so far. */
  lemma StillUnused(s: Sys, lim: Limits, evs: seq<Event>, q: Sys)
    requires Leads(s, lim, evs, q) && s.handed == [] && s.sawBusy == {}
    ensures q.handed == [] && q.sawBusy == {}
  {
    WorkerIsNeverUsed(s, lim, evs);
  }

  /** Everybody queued or being paired since `now`: a sweep at that moment changes nothing. */
  predicate AllSince(c: Core, now: int) {
    forall p :: p in c.entries ==> c.entries[p].status.Queued? && c.entries[p].queuedAt == now
  }

  lemma NothingToSweep(c: Core, now: int, lim: Limits)
    requires AllSince(c, now)
    ensures Sweep(c, now, lim) == c
  {
    assert OverdueSet(c, now, lim) == {};
    WithoutKeepsAll(c.queue, {});
    assert forall p :: p in c.entries ==> TimeOutOne(p, c, now, lim) == c.entries[p];
  }

  function Added(c: Core, p: string, r: string, now: int): Core {
    c.(queue := c.queue + [p], entries := c.entries[p := FreshEntry(r, now)])
  }

  lemma Inserted(s: Sys, lim: Limits, t: nat, p: string, r: string, now: int)
    requires SysInv(s) && t in s.threads && s.threads[t] == Gated(p, r, now) && AllSince(s.core, now)
    requires p !in s.core.entries && |s.core.queue| < lim.maxQueue
    ensures var q := s.(core := Added(s.core, p, r, now), threads := s.threads[t := PhaseOne(now, true)]);
      Goes(s, lim, Insert(t), q) && SysInv(q)
  {
    NothingToSweep(s.core, now, lim);
    var q := s.(core := Added(s.core, p, r, now), threads := s.threads[t := PhaseOne(now, true)]);
    assert Goes(s, lim, Insert(t), q);
    Onward(s, lim, Insert(t), q);
  }

  function Arrive(t: nat, p: string, r: string, now: int): seq<Event> {
    [Gate(t, p, r, now)] + [Insert(t)]
  }

  /** A player enqueues, up to the pairing round. */
  lemma Arrives(s: Sys, lim: Limits, t: nat, p: string, r: string, now: int) returns (q: Sys)
    requires SysInv(s) && t !in s.threads && !s.closed && ValidId(p) && ValidId(r) && AllSince(s.core, now)
    requires p !in s.core.entries && |s.core.queue| < lim.maxQueue
    ensures Leads(s, lim, Arrive(t, p, r, now), q) && SysInv(q)
    ensures q.core == Added(s.core, p, r, now) && q.threads == s.threads[t := PhaseOne(now, true)]
    ensures q.inFlight == s.inFlight && !q.closed
  {
    var s1 := s.(threads := s.threads[t := Gated(p, r, now)]);
    Onward(s, lim, Gate(t, p, r, now), s1);
    Inserted(s1, lim, t, p, r, now);
    q := s1.(core := Added(s1.core, p, r, now), threads := s1.threads[t := PhaseOne(now, true)]);
    Onward(s1, lim, Insert(t), q);
    RunsJoin(s, lim, [Gate(t, p, r, now)], s1, [Insert(t)], q);
  }

  /** The round gets no id: there is nobody to pair with, or the factory failed. */
  lemma TakesNobody(s: Sys, lim: Limits, t: nat, now: int, ids: seq<string>) returns (q: Sys)
    requires SysInv(s) && t in s.threads && s.threads[t] == PhaseOne(now, true) && (ids == [] || ids == [""])
    ensures Leads(s, lim, [Take(t, ids)], q) && SysInv(q)
    ensures q.core == s.core && q.inFlight == s.inFlight && q.closed == s.closed
      && q.threads == s.threads[t := OwesMark]
  {
    q := s.(threads := s.threads[t := OwesMark]);
    Onward(s, lim, Take(t, ids), q);
  }

  function Enqueues(t: nat, p: string, r: string, now: int, ids: seq<string>): seq<Event> {
    Arrive(t, p, r, now) + [Take(t, ids)]
  }

  lemma ArrivesUnpaired(s: Sys, lim: Limits, t: nat, p: string, r: string, now: int, ids: seq<string>) returns (q: Sys)
    requires SysInv(s) && t !in s.threads && !s.closed && ValidId(p) && ValidId(r) && AllSince(s.core, now)
    requires p !in s.core.entries && |s.core.queue| < lim.maxQueue && (ids == [] || ids == [""])
    ensures Leads(s, lim, Enqueues(t, p, r, now, ids), q) && SysInv(q)
    ensures q.core == Added(s.core, p, r, now) && q.threads == s.threads[t := OwesMark]
    ensures q.inFlight == s.inFlight && !q.closed
  {
    var s2 := Arrives(s, lim, t, p, r, now);
    q := TakesNobody(s2, lim, t, now, ids);
    RunsJoin(s, lim, Arrive(t, p, r, now), s2, [Take(t, ids)], q);
  }

  lemma AddedSince(c: Core, p: string, r: string, now: int)
    requires AllSince(c, now)
    ensures AllSince(Added(c, p, r, now), now)
  {
  }

  /** Two players arrive and the id factory answers nothing: they are stranded. The factory the process
      builds never does that; one given to the constructor may. */
  lemma TwoArriveAndWait(s: Sys, lim: Limits, a: string, b: string, r: string, now: int)
    requires Start(s) && SysInv(s) && !s.closed && s.core == EmptyCore && lim.maxQueue >= 2
    requires ValidId(a) && ValidId(b) && ValidId(r) && a != b
    ensures exists q ::
      && Leads(s, lim, Enqueues(0, a, r, now, []) + Enqueues(1, b, r, now, [""]), q)
      && Stranded(q) && q.core.queue == [a, b]
  {
    var q1 := ArrivesUnpaired(s, lim, 0, a, r, now, []);
    AddedSince(s.core, a, r, now);
    var q2 := ArrivesUnpaired(q1, lim, 1, b, r, now, [""]);
    RunsJoin(s, lim, Enqueues(0, a, r, now, []), q1, Enqueues(1, b, r, now, [""]), q2);
    assert [] + [a] + [b] == [a, b];
    assert Stranded(q2);
  }

  // A group given up because one of its two players cancelled, while a third has come to wait.

  function BeingPaired(r: string, now: int, m: string, ps: seq<string>): Entry {
    MarkAllocating(FreshEntry(r, now), m, ps)
  }

  /** `a` and `b` out of the queue for match `m`. */
  function PairTaken(a: string, b: string, r: string, now: int, m: string): Core {
    Core([], map[a := BeingPaired(r, now, m, [a, b]), b := BeingPaired(r, now, m, [a, b])], false)
  }

  function CancelNoted(a: string, b: string, r: string, now: int, m: string): Core {
    var c := PairTaken(a, b, r, now, m);
    c.(entries := c.entries[a := c.entries[a].(cancelRequested := true)])
  }

  lemma PairIsTaken(a: string, b: string, r: string, now: int, m: string)
    requires a != b && m != ""
    ensures var c := Added(Added(EmptyCore, a, r, now), b, r, now);
      && (forall p :: p in c.queue ==> p in c.entries)
      && TakeAll(c, [m]) == Taken(PairTaken(a, b, r, now, m), [Group(m, [a, b], r)])
  {
    var c := Added(Added(EmptyCore, a, r, now), b, r, now);
    assert c.queue == [a, b] && c.queue[..2] == [a, b] && c.queue[2..] == [] && [m][1..] == [];
    assert TakeOne(c, m) == PairTaken(a, b, r, now, m);
    assert TakeAll(PairTaken(a, b, r, now, m), []).groups == [];
  }

  lemma CancelIsNoted(a: string, b: string, r: string, now: int, m: string, lim: Limits)
    requires a != b
    ensures CancelStep(PairTaken(a, b, r, now, m), a, now, lim) == Cancelled(CancelNoted(a, b, r, now, m), true, true)
    ensures AllSince(CancelNoted(a, b, r, now, m), now) && CancelNoted(a, b, r, now, m).entries.Keys == {a, b}
  {
    NothingToSweep(PairTaken(a, b, r, now, m), now, lim);
  }

  lemma PairIsGivenUp(a: string, b: string, c: string, r: string, now: int, m: string, room: string)
    requires a != b && b != c && a != c && room != ""
    ensures Commit(Added(CancelNoted(a, b, r, now, m), c, r, now), Group(m, [a, b], r), room, now)
      == Core([b, c], map[b := FreshEntry(r, now), c := FreshEntry(r, now)], false)
  {
    var s := Added(CancelNoted(a, b, r, now, m), c, r, now);
    var g := Group(m, [a, b], r);
    assert CancelledOf(s, g) == {a} && MissingOf(s, g) == {};
    assert {a} + {} == {a};
    assert g.members[1..] == [b] && [b][1..] == [];
    assert Without([b], {a}) == [b] && Without(g.members, {a}) == [b];
  }

  lemma TakesPair(s: Sys, lim: Limits, a: string, b: string, r: string, now: int, m: string) returns (q: Sys)
    requires SysInv(s) && s.core == Added(Added(EmptyCore, a, r, now), b, r, now) && s.inFlight == map[]
    requires 1 in s.threads && s.threads[1] == PhaseOne(now, true) && a != b && m != ""
    ensures Leads(s, lim, [Take(1, [m])], q) && SysInv(q)
    ensures q.core == PairTaken(a, b, r, now, m) && q.closed == s.closed
    ensures q.threads == s.threads[1 := Allocating([Group(m, [a, b], r)], now)]
  {
    PairIsTaken(a, b, r, now, m);
    OneTracked(Group(m, [a, b], r));
    assert FreshIds([m], s.core, s.inFlight);
    q := s.(core := PairTaken(a, b, r, now, m), inFlight := map[m := [a, b]],
            threads := s.threads[1 := Allocating([Group(m, [a, b], r)], now)]);
    Onward(s, lim, Take(1, [m]), q);
  }

  lemma OneTracked(g: Group)
    ensures Tracked(map[], [g]) == map[g.matchId := g.members]
  {
    assert Tracked(map[g.matchId := g.members], [g][1..]) == map[g.matchId := g.members];
  }

  lemma Overwritten(threads: map<nat, Thread>, t: nat, th: Thread, later: Thread)
    ensures threads[t := th][t := later] == threads[t := later]
  {
  }

  /** One player waits and a second arrives: they are taken, and their room is being allocated. */
  lemma SecondIsTaken(s: Sys, lim: Limits, a: string, b: string, r: string, now: int, m: string) returns (q: Sys)
    requires SysInv(s) && s.core == Added(EmptyCore, a, r, now) && 1 !in s.threads && s.inFlight == map[]
    requires ValidId(b) && ValidId(r) && a != b && m != "" && !s.closed && lim.maxQueue >= 2
    ensures Leads(s, lim, Enqueues(1, b, r, now, [m]), q) && SysInv(q)
    ensures q.core == PairTaken(a, b, r, now, m) && q.closed == s.closed
    ensures q.threads == s.threads[1 := Allocating([Group(m, [a, b], r)], now)]
  {
    var s2 := Arrives(s, lim, 1, b, r, now);
    q := TakesPair(s2, lim, a, b, r, now, m);
    Overwritten(s.threads, 1, PhaseOne(now, true), Allocating([Group(m, [a, b], r)], now));
    RunsJoin(s, lim, Arrive(1, b, r, now), s2, [Take(1, [m])], q);
  }

  lemma FirstCancels(s: Sys, lim: Limits, a: string, b: string, r: string, now: int, m: string) returns (q: Sys)
    requires SysInv(s) && s.core == PairTaken(a, b, r, now, m) && 2 !in s.threads && a != b
    ensures Leads(s, lim, [Cancel(2, a, now)], q) && SysInv(q)
    ensures q.core == CancelNoted(a, b, r, now, m) && q.threads == s.threads[2 := OwesMark] && q.closed == s.closed
  {
    CancelIsNoted(a, b, r, now, m, lim);
    q := s.(core := CancelNoted(a, b, r, now, m), threads := s.threads[2 := OwesMark]);
    Onward(s, lim, Cancel(2, a, now), q);
  }

  lemma GivenUp(s: Sys, lim: Limits, a: string, b: string, c: string, r: string, now: int, m: string, room: string)
    returns (q: Sys)
    requires SysInv(s) && s.core == Added(CancelNoted(a, b, r, now, m), c, r, now)
    requires 1 in s.threads && s.threads[1] == Allocating([Group(m, [a, b], r)], now)
    requires a != b && b != c && a != c && room != "" && s.handed == [] && s.sawBusy == {}
    ensures Leads(s, lim, [CommitNext(1, room)], q)
    ensures q.core.queue == [b, c] && !q.core.retry && q.threads == s.threads[1 := OwesMark]
  {
    PairIsGivenUp(a, b, c, r, now, m, room);
    q := s.(core := Core([b, c], map[b := FreshEntry(r, now), c := FreshEntry(r, now)], false),
            inFlight := s.inFlight - {m}, threads := s.threads[1 := OwesMark]);
    Onward(s, lim, CommitNext(1, room), q);
  }

  /** `a` waits, `b` arrives and is paired with `a`, `a` cancels, `c` arrives, the room is found. */
  function CancelRun(a: string, b: string, c: string, r: string, now: int, m: string, room: string): seq<Event> {
    Enqueues(0, a, r, now, []) + Enqueues(1, b, r, now, [m]) + [Cancel(2, a, now)]
    + (Enqueues(3, c, r, now, []) + [CommitNext(1, room)])
  }

  lemma PairComes(s: Sys, lim: Limits, a: string, b: string, r: string, now: int, m: string) returns (q: Sys)
    requires Start(s) && SysInv(s) && !s.closed && s.core == EmptyCore && lim.maxQueue >= 2
    requires ValidId(a) && ValidId(b) && ValidId(r) && a != b && m != ""
    ensures Leads(s, lim, Enqueues(0, a, r, now, []) + Enqueues(1, b, r, now, [m]), q) && SysInv(q)
    ensures !q.closed && q.core == PairTaken(a, b, r, now, m)
    ensures q.threads == map[0 := OwesMark][1 := Allocating([Group(m, [a, b], r)], now)]
  {
    var q1 := ArrivesUnpaired(s, lim, 0, a, r, now, []);
    q := SecondIsTaken(q1, lim, a, b, r, now, m);
    RunsJoin(s, lim, Enqueues(0, a, r, now, []), q1, Enqueues(1, b, r, now, [m]), q);
  }

  /** The run up to the cancel. */
  lemma OneCancels(s: Sys, lim: Limits, a: string, b: string, r: string, now: int, m: string) returns (q: Sys)
    requires Start(s) && SysInv(s) && !s.closed && s.core == EmptyCore && lim.maxQueue >= 2
    requires ValidId(a) && ValidId(b) && ValidId(r) && a != b && m != ""
    ensures Leads(s, lim, Enqueues(0, a, r, now, []) + Enqueues(1, b, r, now, [m]) + [Cancel(2, a, now)], q)
    ensures SysInv(q) && !q.closed && q.core == CancelNoted(a, b, r, now, m) && q.handed == [] && q.sawBusy == {}
    ensures q.threads == map[0 := OwesMark][1 := Allocating([Group(m, [a, b], r)], now)][2 := OwesMark]
  {
    var q2 := PairComes(s, lim, a, b, r, now, m);
    q := FirstCancels(q2, lim, a, b, r, now, m);
    RunsJoin(s, lim, Enqueues(0, a, r, now, []) + Enqueues(1, b, r, now, [m]), q2, [Cancel(2, a, now)], q);
    StillUnused(s, lim, Enqueues(0, a, r, now, []) + Enqueues(1, b, r, now, [m]) + [Cancel(2, a, now)], q);
  }

  /** The run from there. */
  lemma TwoAreLeft(s: Sys, lim: Limits, a: string, b: string, c: string, r: string, now: int, m: string, room: string)
    returns (q: Sys)
    requires SysInv(s) && !s.closed && s.core == CancelNoted(a, b, r, now, m) && lim.maxQueue >= 2
    requires s.threads == map[0 := OwesMark][1 := Allocating([Group(m, [a, b], r)], now)][2 := OwesMark]
    requires ValidId(c) && ValidId(r) && a != b && b != c && a != c && room != ""
    requires s.handed == [] && s.sawBusy == {}
    ensures Leads(s, lim, Enqueues(3, c, r, now, []) + [CommitNext(1, room)], q)
    ensures q.core.queue == [b, c] && Stranded(q)
  {
    CancelIsNoted(a, b, r, now, m, lim);
    var q4 := ArrivesUnpaired(s, lim, 3, c, r, now, []);
    StillUnused(s, lim, Enqueues(3, c, r, now, []), q4);
    q := GivenUp(q4, lim, a, b, c, r, now, m, room);
    RunsJoin(s, lim, Enqueues(3, c, r, now, []), q4, [CommitNext(1, room)], q);
  }

  /** From any start with an empty queue: the two players who are left are stranded. */
  lemma CancelStrandsTwo(s: Sys, lim: Limits, a: string, b: string, c: string, r: string, now: int, m: string,
                         room: string)
    requires Start(s) && SysInv(s) && !s.closed && s.core == EmptyCore && lim.maxQueue >= 2
    requires ValidId(a) && ValidId(b) && ValidId(c) && ValidId(r) && a != b && b != c && a != c && m != "" && room != ""
    ensures exists q :: Leads(s, lim, CancelRun(a, b, c, r, now, m, room), q) && Stranded(q) && q.core.queue == [b, c]
  {
    var q3 := OneCancels(s, lim, a, b, r, now, m);
    var q5 := TwoAreLeft(q3, lim, a, b, c, r, now, m, room);
    RunsJoin(s, lim, Enqueues(0, a, r, now, []) + Enqueues(1, b, r, now, [m]) + [Cancel(2, a, now)], q3,
             Enqueues(3, c, r, now, []) + [CommitNext(1, room)], q5);
  }

  // ------------------------------------------------------------------ a failed round that changes the order

  lemma FourAdded(a: string, b: string, c: string, d: string, r: string, now: int)
    requires NoDup([a, b, c, d])
    ensures var abc := Added(Added(Added(EmptyCore, a, r, now), b, r, now), c, r, now);
      Added(abc, d, r, now) == AllWaiting([a, b, c, d], r, now)
  {
    var abc := Added(Added(Added(EmptyCore, a, r, now), b, r, now), c, r, now);
    assert [] + [a] + [b] + [c] + [d] == [a, b, c, d];
    assert Added(abc, d, r, now).entries.Keys == AllWaiting([a, b, c, d], r, now).entries.Keys;
  }

  lemma TwoArrive(s: Sys, lim: Limits, t: nat, p: string, u: nat, o: string, r: string, now: int) returns (q: Sys)
    requires SysInv(s) && t !in s.threads && u !in s.threads && t != u && !s.closed && AllSince(s.core, now)
    requires ValidId(p) && ValidId(o) && ValidId(r) && p != o && p !in s.core.entries && o !in s.core.entries
    requires |s.core.queue| + 1 < lim.maxQueue
    ensures Leads(s, lim, Arrive(t, p, r, now) + Arrive(u, o, r, now), q) && SysInv(q)
    ensures q.core == Added(Added(s.core, p, r, now), o, r, now) && AllSince(q.core, now)
    ensures q.threads.Keys == s.threads.Keys + {t, u} && q.threads[t] == PhaseOne(now, true)
    ensures forall v :: v in s.threads ==> q.threads[v] == s.threads[v]
    ensures q.inFlight == s.inFlight && !q.closed
  {
    var q1 := Arrives(s, lim, t, p, r, now);
    AddedSince(s.core, p, r, now);
    q := Arrives(q1, lim, u, o, r, now);
    AddedSince(q1.core, o, r, now);
    RunsJoin(s, lim, Arrive(t, p, r, now), q1, Arrive(u, o, r, now), q);
  }

  /** Four requests, each up to its pairing round. */
  lemma FourArrive(s: Sys, lim: Limits, a: string, b: string, c: string, d: string, r: string, now: int)
    returns (q: Sys)
    requires Start(s) && SysInv(s) && !s.closed && s.core == EmptyCore && lim.maxQueue >= 4
    requires ValidId(a) && ValidId(b) && ValidId(c) && ValidId(d) && ValidId(r) && NoDup([a, b, c, d])
    ensures Leads(s, lim, Arrive(0, a, r, now) + Arrive(1, b, r, now) + (Arrive(2, c, r, now) + Arrive(3, d, r, now)),
                  q)
    ensures SysInv(q) && q.core == AllWaiting([a, b, c, d], r, now) && q.inFlight == map[]
    ensures 0 in q.threads && q.threads[0] == PhaseOne(now, true) && q.handed == [] && q.sawBusy == {}
  {
    DistinctFour(a, b, c, d);
    var q2 := TwoArrive(s, lim, 0, a, 1, b, r, now);
    q := TwoArrive(q2, lim, 2, c, 3, d, r, now);
    FourAdded(a, b, c, d, r, now);
    RunsJoin(s, lim, Arrive(0, a, r, now) + Arrive(1, b, r, now), q2, Arrive(2, c, r, now) + Arrive(3, d, r, now), q);
    StillUnused(s, lim, Arrive(0, a, r, now) + Arrive(1, b, r, now) + (Arrive(2, c, r, now) + Arrive(3, d, r, now)), q);
  }

  lemma DistinctFour(a: string, b: string, c: string, d: string)
    requires NoDup([a, b, c, d])
    ensures a != b && a != c && a != d && b != c && b != d && c != d
  {
    var q := [a, b, c, d];
    assert q[0] == a && q[1] == b && q[2] == c && q[3] == d;
  }

  /** The first request's round takes all four, and both of its allocations fail. */
  lemma RoundFails(s: Sys, lim: Limits, a: string, b: string, c: string, d: string, r: string, now: int, m: string,
                   n: string)
    returns (q: Sys)
    requires SysInv(s) && s.core == AllWaiting([a, b, c, d], r, now) && s.inFlight == map[]
    requires 0 in s.threads && s.threads[0] == PhaseOne(now, true) && s.handed == [] && s.sawBusy == {}
    requires NoDup([a, b, c, d]) && m != "" && n != "" && m != n
    ensures Leads(s, lim, [Take(0, [m, n])] + ([CommitNext(0, "")] + [CommitNext(0, "")]), q)
    ensures q.core.queue == [c, d, a, b]
  {
    FourAreTaken(a, b, c, d, r, now, m, n);
    FourPlayersChangeOrder(a, b, c, d, r, now, m, n);
    var g, h := Group(m, [a, b], r), Group(n, [c, d], r);
    var taken := TakeAll(s.core, [m, n]);
    var q1 := Step(s, lim, Take(0, [m, n]));
    Onward(s, lim, Take(0, [m, n]), q1);
    assert q1.threads[0] == Allocating([g, h], now);
    var q2 := Step(q1, lim, CommitNext(0, ""));
    Onward(q1, lim, CommitNext(0, ""), q2);
    assert q2.threads[0] == Allocating([h], now);
    q := Step(q2, lim, CommitNext(0, ""));
    Onward(q2, lim, CommitNext(0, ""), q);
    TwoCommits(taken.core, g, h, now);
    RunsJoin(q1, lim, [CommitNext(0, "")], q2, [CommitNext(0, "")], q);
    RunsJoin(s, lim, [Take(0, [m, n])], q1, [CommitNext(0, "")] + [CommitNext(0, "")], q);
  }

  lemma TwoCommits(c: Core, g: Group, h: Group, now: int)
    ensures CommitAll(c, [g, h], ["", ""], now) == Commit(Commit(c, g, "", now), h, "", now)
  {
    assert [g, h][1..] == [h] && ["", ""][1..] == [""] && [h][1..] == [] && [""][1..] == [];
    assert CommitAll(Commit(c, g, "", now), [h], [""], now) == Commit(Commit(c, g, "", now), h, "", now);
  }

  /** From any start with an empty queue: a, b, c and d come one after the other; a round fails, and c and d
      stand before a and b. */
  lemma FailedRoundChangesOrder(s: Sys, lim: Limits, a: string, b: string, c: string, d: string, r: string, now: int,
                                m: string, n: string) returns (q: Sys, last: Sys)
    requires Start(s) && SysInv(s) && !s.closed && s.core == EmptyCore && lim.maxQueue >= 4
    requires ValidId(a) && ValidId(b) && ValidId(c) && ValidId(d) && ValidId(r) && NoDup([a, b, c, d])
    requires m != "" && n != "" && m != n
    ensures Leads(s, lim, Arrive(0, a, r, now) + Arrive(1, b, r, now) + (Arrive(2, c, r, now) + Arrive(3, d, r, now)),
                  q)
    ensures q.core.queue == [a, b, c, d]
    ensures Leads(q, lim, [Take(0, [m, n])] + ([CommitNext(0, "")] + [CommitNext(0, "")]), last)
    ensures last.core.queue == [c, d, a, b]
  {
    q := FourArrive(s, lim, a, b, c, d, r, now);
    last := RoundFails(q, lim, a, b, c, d, r, now, m, n);
  }
}
