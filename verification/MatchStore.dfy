/** The snapshot through the store: encode, save, load, decode, restore. */
module MatchStore {
  import opened Wrappers
  import opened Seqs
  import opened MatchCore
  import opened MatchSnapshot
  import opened MatchRestart
  import opened MatchProtocol
  import Codec = SnapshotCodec

  // ------------------------------------------------------------------ saving and loading lines

  function QueuedRowOf(x: QueuedAt): Codec.Row
    requires Codec.IsInt64(x.1)
  {
    Codec.QueuedRow(x.0, x.1)
  }

  function MatchedRowOf(m: Match): Codec.Row
    requires Codec.IsInt64(m.stamp)
  {
    Codec.MatchedRow(m.matchId, m.roomId, m.stamp, m.members)
  }

  predicate InRange(snap: Snapshot) {
    && (forall x :: x in snap.queued ==> Codec.IsInt64(x.1))
    && (forall m :: m in snap.matched ==> Codec.IsInt64(m.stamp))
  }

  /** The lines of the recorded matches; a row the encoder refuses is left out, the rest is saved. */
  function MatchedLines(ms: seq<Match>): seq<string>
    requires forall m :: m in ms ==> Codec.IsInt64(m.stamp)
    decreases |ms|
  {
    if ms == [] then []
    else if Codec.Validate(MatchedRowOf(ms[0])).Some? then MatchedLines(ms[1..])
    else [Codec.LineOf(MatchedRowOf(ms[0]))] + MatchedLines(ms[1..])
  }

  /** The lines of the waiting players, followed by `tail`. */
  function QueuedLines(xs: seq<QueuedAt>, tail: seq<string>): seq<string>
    requires forall x :: x in xs ==> Codec.IsInt64(x.1)
    decreases |xs|
  {
    if xs == [] then tail
    else if Codec.Validate(QueuedRowOf(xs[0])).Some? then QueuedLines(xs[1..], tail)
    else [Codec.LineOf(QueuedRowOf(xs[0]))] + QueuedLines(xs[1..], tail)
  }

  function SavedLines(snap: Snapshot): seq<string>
    requires InRange(snap)
  {
    QueuedLines(snap.queued, MatchedLines(snap.matched))
  }

  datatype Loaded = Loaded(snap: Snapshot, bad: nat)

  /** Split the decoded rows by kind, counting the lines that do not decode. */
  function Load(lines: seq<string>): Loaded {
    if lines == [] then Loaded(Snapshot([], []), 0)
    else
      var rest := Load(lines[1..]);
      match Codec.DecodeLine(lines[0])
      case Bad(_) => rest.(bad := rest.bad + 1)
      case Good(QueuedRow(p, t)) => rest.(snap := rest.snap.(queued := [(p, t as int)] + rest.snap.queued))
      case Good(MatchedRow(m, r, t, ps)) =>
        rest.(snap := rest.snap.(matched := [Match(m, r, ps, t as int)] + rest.snap.matched))
  }

  function Joined(a: Loaded, b: Loaded): Loaded {
    Loaded(Snapshot(a.snap.queued + b.snap.queued, a.snap.matched + b.snap.matched), a.bad + b.bad)
  }

  lemma {:induction false} LoadMore(lines: seq<string>, line: string)
    ensures Load(lines + [line]) == Joined(Load(lines), Load([line]))
  {
    if lines == [] {
      assert lines + [line] == [line];
    } else {
      assert (lines + [line])[0] == lines[0] && (lines + [line])[1..] == lines[1..] + [line];
      LoadMore(lines[1..], line);
      var rest, one := Load(lines[1..]), Load([line]);
      match Codec.DecodeLine(lines[0])
      case Bad(_) =>
      case Good(QueuedRow(p, t)) =>
        var x := (p, t as int);
        assert [x] + (rest.snap.queued + one.snap.queued) == [x] + rest.snap.queued + one.snap.queued;
      case Good(MatchedRow(m, r, t, ps)) =>
        var x := Match(m, r, ps, t as int);
        assert [x] + (rest.snap.matched + one.snap.matched) == [x] + rest.snap.matched + one.snap.matched;
    }
  }

  lemma LoadOne(line: string)
    ensures Load([line]) == match Codec.DecodeLine(line)
      case Bad(_) => Loaded(Snapshot([], []), 1)
      case Good(QueuedRow(p, t)) => Loaded(Snapshot([(p, t as int)], []), 0)
      case Good(MatchedRow(m, r, t, ps)) => Loaded(Snapshot([], [Match(m, r, ps, t as int)]), 0)
  {
    assert [line][1..] == [];
    assert Load([]) == Loaded(Snapshot([], []), 0);
  }

  lemma LoadQueuedLine(x: QueuedAt, lines: seq<string>)
    requires Codec.IsInt64(x.1) && Codec.Validate(QueuedRowOf(x)).None?
    ensures Load([Codec.LineOf(QueuedRowOf(x))] + lines)
      == Load(lines).(snap := Load(lines).snap.(queued := [x] + Load(lines).snap.queued))
  {
    Codec.RoundTrip(QueuedRowOf(x));
    assert ([Codec.LineOf(QueuedRowOf(x))] + lines)[1..] == lines;
  }

  lemma LoadMatchedLine(m: Match, lines: seq<string>)
    requires Codec.IsInt64(m.stamp) && Codec.Validate(MatchedRowOf(m)).None?
    ensures Load([Codec.LineOf(MatchedRowOf(m))] + lines)
      == Load(lines).(snap := Load(lines).snap.(matched := [m] + Load(lines).snap.matched))
  {
    Codec.RoundTrip(MatchedRowOf(m));
    assert ([Codec.LineOf(MatchedRowOf(m))] + lines)[1..] == lines;
  }

  lemma {:induction false} LoadMatched(ms: seq<Match>)
    requires forall m :: m in ms ==> Codec.IsInt64(m.stamp) && Codec.Validate(MatchedRowOf(m)).None?
    ensures Load(MatchedLines(ms)) == Loaded(Snapshot([], ms), 0)
    decreases |ms|
  {
    if ms != [] {
      LoadMatched(ms[1..]);
      LoadMatchedLine(ms[0], MatchedLines(ms[1..]));
      assert [ms[0]] + ms[1..] == ms;
    }
  }

  lemma {:induction false} LoadQueued(xs: seq<QueuedAt>, tail: seq<string>, ms: seq<Match>)
    requires forall x :: x in xs ==> Codec.IsInt64(x.1) && Codec.Validate(QueuedRowOf(x)).None?
    requires Load(tail) == Loaded(Snapshot([], ms), 0)
    ensures Load(QueuedLines(xs, tail)) == Loaded(Snapshot(xs, ms), 0)
    decreases |xs|
  {
    if xs != [] {
      LoadQueued(xs[1..], tail, ms);
      LoadQueuedLine(xs[0], QueuedLines(xs[1..], tail));
      assert [xs[0]] + xs[1..] == xs;
    }
  }

  // ------------------------------------------------------------------ states whose snapshots can be saved

  predicate GoodTime(t: int) {
    0 < t && Codec.IsInt64(t)
  }

  predicate StorableEntry(p: string, e: Entry) {
    && ValidId(p)
    && (e.status.Queued? ==> GoodTime(e.queuedAt))
    && (e.matchId != "" ==> ValidId(e.matchId))
    && (e.status.Matched? ==> ValidId(e.roomId) && GoodTime(e.stamp))
  }

  ghost predicate Storable(s: Core) {
    forall p :: p in s.entries ==> StorableEntry(p, s.entries[p])
  }

  lemma SnapshotIsStorable(s: Core, fl: InFlight, snap: Snapshot)
    requires Inv(s, fl) && Storable(s) && IsSnapshotOf(snap, s)
    ensures InRange(snap)
    ensures forall x :: x in snap.queued ==> Codec.Validate(QueuedRowOf(x)).None?
    ensures forall m :: m in snap.matched ==> Codec.Validate(MatchedRowOf(m)).None?
  {
    SnapshotListsQueued(s, fl, snap);
    forall x | x in snap.queued ensures Codec.IsInt64(x.1) && Codec.Validate(QueuedRowOf(x)).None? {
      assert StorableEntry(x.0, s.entries[x.0]);
    }
    ListedMatchesAreRecorded(s, fl, snap);
    forall m | m in snap.matched ensures Codec.IsInt64(m.stamp) && Codec.Validate(MatchedRowOf(m)).None? {
      assert Recorded(m, s);
      var p := m.members[0];
      assert EntryOk(p, s, fl) && StorableEntry(p, s.entries[p]);
      forall i | 0 <= i < |m.members| ensures ValidId(m.members[i]) {
        assert m.members[i] in m.members;
        assert StorableEntry(m.members[i], s.entries[m.members[i]]);
      }
    }
  }

  /** Saving a snapshot and loading it back gives the same snapshot, with no bad line. */
  lemma SaveLoadRoundTrip(s: Core, fl: InFlight, snap: Snapshot)
    requires Inv(s, fl) && Storable(s) && IsSnapshotOf(snap, s)
    ensures InRange(snap)
    ensures Load(SavedLines(snap)) == Loaded(snap, 0)
  {
    SnapshotIsStorable(s, fl, snap);
    LoadMatched(snap.matched);
    LoadQueued(snap.queued, MatchedLines(snap.matched), snap.matched);
  }

  // ------------------------------------------------------------------ reachable states are storable

  /** The threads still carry honest arguments. */
  ghost predicate HonestThread(th: Thread) {
    match th
    case Gated(player, _, now) => ValidId(player) && GoodTime(now)
    case Polled(now, _) => GoodTime(now)
    case PhaseOne(now, _) => GoodTime(now)
    case Allocating(_, now) => GoodTime(now)
    case OwesMark => true
  }

  ghost predicate HonestSys(s: Sys) {
    && Storable(s.core)
    && forall t :: t in s.threads ==> HonestThread(s.threads[t])
  }

  /** The clock is a positive 64-bit millisecond count; ids and room ids fit the identifier limit. */
  predicate HonestEvent(ev: Event) {
    match ev
    case Gate(_, _, _, now) => GoodTime(now)
    case Poll(_, now) => GoodTime(now)
    case Cancel(_, _, now) => GoodTime(now)
    case Take(_, ids) => forall i :: 0 <= i < |ids| ==> |ids[i]| <= MAX_ID_LENGTH
    case CommitNext(_, room) => |room| <= MAX_ID_LENGTH
    case _ => true
  }

  lemma {:induction false} TakeAllStorable(s: Core, fl: InFlight, ids: seq<string>)
    requires Inv(s, fl) && FreshIds(ids, s, fl) && Storable(s)
    requires forall i :: 0 <= i < |ids| ==> |ids[i]| <= MAX_ID_LENGTH
    ensures Storable(TakeAll(s, ids).core)
    decreases |s.queue|
  {
    if |s.queue| >= 2 && |ids| > 0 && ids[0] != "" {
      TakeOneKeepsInv(s, fl, ids[0]);
      var t := TakeOne(s, ids[0]);
      var fl' := fl[ids[0] := s.queue[..2]];
      FreshIdsTail(s, fl, ids);
      forall p | p in t.entries ensures StorableEntry(p, t.entries[p]) {
        assert StorableEntry(p, s.entries[p]);
      }
      TakeAllStorable(t, fl', ids[1..]);
    }
  }

  lemma CommitStorable(s: Core, g: Group, room: string, now: int)
    requires Storable(s) && GoodTime(now) && |room| <= MAX_ID_LENGTH
    ensures Storable(Commit(s, g, room, now))
  {
    var t := Commit(s, g, room, now);
    forall p | p in t.entries ensures StorableEntry(p, t.entries[p]) {
      assert StorableEntry(p, s.entries[p]);
    }
  }

  lemma SweepStorable(s: Core, now: int, lim: Limits)
    requires Storable(s)
    ensures Storable(Sweep(s, now, lim))
  {
    forall p | p in Sweep(s, now, lim).entries ensures StorableEntry(p, Sweep(s, now, lim).entries[p]) {
      assert StorableEntry(p, s.entries[p]);
    }
  }

  lemma RequestsStorable(s: Core, p: string, r: string, now: int, lim: Limits)
    requires Storable(s) && GoodTime(now)
    ensures ValidId(p) ==> Storable(EnqueueStep(s, p, r, now, lim).core)
    ensures Storable(CancelStep(s, p, now, lim).core)
  {
    SweepStorable(s, now, lim);
    var u := Sweep(s, now, lim);
    var a, b := EnqueueStep(s, p, r, now, lim).core, CancelStep(s, p, now, lim).core;
    forall q | q in a.entries && ValidId(p) ensures StorableEntry(q, a.entries[q]) {
      assert q in u.entries ==> StorableEntry(q, u.entries[q]);
    }
    forall q | q in b.entries ensures StorableEntry(q, b.entries[q]) {
      assert StorableEntry(q, u.entries[q]);
    }
  }

  lemma StepStaysStorable(s: Sys, lim: Limits, ev: Event)
    requires SysInv(s) && Enabled(s, ev) && HonestSys(s) && HonestEvent(ev)
    ensures Storable(Step(s, lim, ev).core)
  {
    match ev
    case Insert(t) =>
      RequestsStorable(s.core, s.threads[t].player, s.threads[t].requestId, s.threads[t].now, lim);
    case Poll(_, now) =>
      SweepStorable(s.core, now, lim);
    case Cancel(_, p, now) =>
      RequestsStorable(s.core, p, "", now, lim);
    case Take(_, ids) =>
      TakeAllStorable(s.core, s.inFlight, ids);
    case CommitNext(t, room) =>
      CommitStorable(s.core, s.threads[t].groups[0], room, s.threads[t].now);
    case _ =>
  }

  lemma ThreadsStayHonest(s: Sys, lim: Limits, ev: Event)
    requires SysInv(s) && Enabled(s, ev) && HonestSys(s) && HonestEvent(ev)
    ensures forall t :: t in Step(s, lim, ev).threads ==> HonestThread(Step(s, lim, ev).threads[t])
  {
  }

  lemma StepStaysHonest(s: Sys, lim: Limits, ev: Event)
    requires SysInv(s) && Enabled(s, ev) && HonestSys(s) && HonestEvent(ev)
    ensures HonestSys(Step(s, lim, ev))
  {
    StepStaysStorable(s, lim, ev);
    ThreadsStayHonest(s, lim, ev);
  }

  lemma {:induction false} RunStaysHonest(s: Sys, lim: Limits, evs: seq<Event>)
    requires SysInv(s) && Legal(s, lim, evs) && HonestSys(s)
    requires forall i :: 0 <= i < |evs| ==> HonestEvent(evs[i])
    ensures HonestSys(Run(s, lim, evs))
    decreases |evs|
  {
    if evs != [] {
      StepKeepsInv(s, lim, evs[0]);
      StepStaysHonest(s, lim, evs[0]);
      RunStaysHonest(Step(s, lim, evs[0]), lim, evs[1..]);
    }
  }

  // ------------------------------------------------------------------ what the store holds after a crash

  /** The image is all a snapshot depends on. */
  lemma SameImageSameSnapshots(c: Core, d: Core, snap: Snapshot)
    requires QueueOk(c) && QueueOk(d) && ImageOf(c) == ImageOf(d) && IsSnapshotOf(snap, c)
    ensures IsSnapshotOf(snap, d)
  {
    var a, b := ImageOf(c), ImageOf(d);
    assert |Stamped(c.queue, c.entries)| == |Stamped(d.queue, d.entries)|;
    var tail := snap.queued[|c.queue|..];
    forall x | x in tail ensures x.0 in d.entries && Returning(d.entries[x.0]) && x.1 == d.entries[x.0].queuedAt {
      assert x.0 in a.returning && x.0 in b.returning && a.returning[x.0] == b.returning[x.0];
    }
    forall p | p in d.entries && Returning(d.entries[p]) ensures (p, d.entries[p].queuedAt) in tail {
      assert p in b.returning && p in a.returning;
    }
    forall m | m in snap.matched ensures Recorded(m, d) {
      assert Recorded(m, c);
      assert m.members[0] in a.matched && m.members[0] in b.matched;
    }
    forall p | p in d.entries && d.entries[p].status.Matched? ensures MatchOf(d.entries[p]) in snap.matched {
      assert p in b.matched && p in a.matched;
    }
  }

  ghost predicate LinesFrom(lines: seq<string>, image: Image, snap: Snapshot, c: Core, fl: InFlight) {
    Inv(c, fl) && ImageOf(c) == image && IsSnapshotOf(snap, c) && InRange(snap) && lines == SavedLines(snap)
  }

  /** The lines in the store came from a snapshot with this image. */
  ghost predicate LinesOf(lines: seq<string>, image: Image) {
    exists snap, c, fl :: LinesFrom(lines, image, snap, c, fl)
  }

  /** What a start makes of the lines. */
  function Restarted(lines: seq<string>, now: int, lim: Limits): Rebuilt {
    var loaded := Load(lines);
    Restore(EmptyCore, loaded.snap, loaded.bad, now, lim)
  }

  /** A store that holds a state's image gives that state back, whichever of its snapshots was written. */
  lemma StoreGivesBack(lines: seq<string>, s: Core, fl: InFlight, now: int, lim: Limits)
    requires Inv(s, fl) && Storable(s) && LinesOf(lines, ImageOf(s))
    ensures var r := Restarted(lines, now, lim);
      RestartedFrom(r.core, s, now, lim) && r.report.dropped == 0 && Inv(r.core, map[])
  {
    var snap, c, fl' :| LinesFrom(lines, ImageOf(s), snap, c, fl');
    SameImageSameSnapshots(c, s, snap);
    SaveLoadRoundTrip(s, fl, snap);
    RestartSimulation(s, fl, snap, now, lim);
  }

  /** A crash at any moment at which the store holds the current state, such as after an idle flush
      (MatchTheorems.IdleFlushStoresCurrentState): the new process starts from that very state. */
  lemma CrashAfterFlush(s0: Sys, lim: Limits, evs: seq<Event>, lines: seq<string>, now: int)
    requires SysInv(s0) && HonestSys(s0) && Legal(s0, lim, evs)
    requires forall i :: 0 <= i < |evs| ==> HonestEvent(evs[i])
    requires LinesOf(lines, Run(s0, lim, evs).stored)
    ensures var s := Run(s0, lim, evs);
      && Inv(s.core, s.inFlight)
      && (s.stored == ImageOf(s.core) ==>
            var r := Restarted(lines, now, lim);
            RestartedFrom(r.core, s.core, now, lim) && r.report.dropped == 0 && Inv(r.core, map[]))
  {
    RunKeepsInv(s0, lim, evs);
    RunStaysHonest(s0, lim, evs);
    var s := Run(s0, lim, evs);
    if s.stored == ImageOf(s.core) {
      StoreGivesBack(lines, s.core, s.inFlight, now, lim);
    }
  }

  // ------------------------------------------------------------------ a crash at any moment

  lemma {:induction false} PrefixLegal(s: Sys, lim: Limits, evs: seq<Event>, k: nat)
    requires SysInv(s) && Legal(s, lim, evs) && k <= |evs|
    ensures Legal(s, lim, evs[..k])
    decreases k
  {
    if k > 0 {
      StepKeepsInv(s, lim, evs[0]);
      PrefixLegal(Step(s, lim, evs[0]), lim, evs[1..], k - 1);
      assert evs[..k][0] == evs[0] && evs[..k][1..] == evs[1..][..k - 1];
    }
  }

  /** `image` is the image of a state the run passed through. */
  ghost predicate PassedThrough(s: Sys, lim: Limits, evs: seq<Event>, image: Image)
    requires SysInv(s) && Legal(s, lim, evs)
  {
    exists k :: 0 <= k <= |evs| && ImageAt(s, lim, evs, k, image)
  }

  ghost predicate ImageAt(s: Sys, lim: Limits, evs: seq<Event>, k: nat, image: Image)
    requires SysInv(s) && Legal(s, lim, evs) && k <= |evs|
  {
    PrefixLegal(s, lim, evs, k);
    RunKeepsInv(s, lim, evs[..k]);
    ImageOf(Run(s, lim, evs[..k]).core) == image
  }

  lemma LaterImage(s: Sys, lim: Limits, evs: seq<Event>, image: Image)
    requires SysInv(s) && Legal(s, lim, evs) && evs != [] && Enabled(s, evs[0]) && SysInv(Step(s, lim, evs[0]))
    requires PassedThrough(Step(s, lim, evs[0]), lim, evs[1..], image)
    ensures PassedThrough(s, lim, evs, image)
  {
    var q, rest := Step(s, lim, evs[0]), evs[1..];
    var k :| 0 <= k <= |rest| && ImageAt(q, lim, rest, k, image);
    PrefixLegal(s, lim, evs, k + 1);
    assert evs[..k + 1][0] == evs[0] && evs[..k + 1][1..] == rest[..k];
    assert ImageAt(s, lim, evs, k + 1, image);
  }

  /** The store holds what it held at the beginning, or the copy then on its way, or the image of a state
      the run has passed through since: never a mixture. */
  lemma {:induction false} StoreHoldsAStateOfTheRun(s: Sys, lim: Limits, evs: seq<Event>)
    requires SysInv(s) && Legal(s, lim, evs)
    ensures var held := Run(s, lim, evs).stored;
      held == s.stored || (s.saving.Some? && held == s.saving.value) || PassedThrough(s, lim, evs, held)
    decreases |evs|
  {
    if evs != [] {
      StepKeepsInv(s, lim, evs[0]);
      var q := Step(s, lim, evs[0]);
      StoreHoldsAStateOfTheRun(q, lim, evs[1..]);
      var held := Run(s, lim, evs).stored;
      if PassedThrough(q, lim, evs[1..], held) {
        LaterImage(s, lim, evs, held);
      } else if held == ImageOf(s.core) {
        assert evs[..0] == [];
        assert ImageAt(s, lim, evs, 0, held);
      }
    }
  }

  /** A crash at any moment: what is restarted is the state the run was in at some moment, unless nothing
      was saved since the start. */
  lemma CrashAtAnyMoment(s0: Sys, lim: Limits, evs: seq<Event>, lines: seq<string>, now: int)
    requires SysInv(s0) && HonestSys(s0) && Legal(s0, lim, evs) && s0.saving.None?
    requires forall i :: 0 <= i < |evs| ==> HonestEvent(evs[i])
    requires LinesOf(lines, Run(s0, lim, evs).stored) && Run(s0, lim, evs).stored != s0.stored
    ensures exists k :: 0 <= k <= |evs| && RestartedAt(s0, lim, evs, k, lines, now)
  {
    StoreHoldsAStateOfTheRun(s0, lim, evs);
    var held := Run(s0, lim, evs).stored;
    var k :| 0 <= k <= |evs| && ImageAt(s0, lim, evs, k, held);
    PrefixLegal(s0, lim, evs, k);
    RunKeepsInv(s0, lim, evs[..k]);
    RunStaysHonest(s0, lim, evs[..k]);
    var s := Run(s0, lim, evs[..k]);
    StoreGivesBack(lines, s.core, s.inFlight, now, lim);
    assert RestartedAt(s0, lim, evs, k, lines, now);
  }

  /** The restarted queue is the one the run had after `k` events. */
  ghost predicate RestartedAt(s: Sys, lim: Limits, evs: seq<Event>, k: nat, lines: seq<string>, now: int)
    requires SysInv(s) && Legal(s, lim, evs) && k <= |evs|
  {
    PrefixLegal(s, lim, evs, k);
    var r := Restarted(lines, now, lim);
    RestartedFrom(r.core, Run(s, lim, evs[..k]).core, now, lim) && r.report.dropped == 0 && Inv(r.core, map[])
  }
}
