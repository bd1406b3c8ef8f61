/** What the queue writes for a restart and what a restarted queue makes of it. */
module MatchSnapshot {
  import opened Seqs
  import opened MatchCore

  // ------------------------------------------------------------------ what a snapshot writes

  datatype Match = Match(matchId: string, roomId: string, members: seq<string>, stamp: int)

  /** The content of a snapshot up to the iteration order of the hash map: the queue in order, the
      players in flight whose cancel is not recorded, and each player's match. */
  datatype Image = Image(waiting: seq<(string, int)>, returning: map<string, int>, matched: map<string, Match>)

  function Stamped(queue: seq<string>, entries: map<string, Entry>): (r: seq<(string, int)>)
    requires forall p :: p in queue ==> p in entries
  {
    seq(|queue|, i requires 0 <= i < |queue| => (queue[i], entries[queue[i]].queuedAt))
  }

  predicate Returning(e: Entry) {
    e.status.Queued? && e.allocating && !e.cancelRequested
  }

  function MatchOf(e: Entry): Match {
    Match(e.matchId, e.roomId, e.members, e.stamp)
  }

  function ImageOf(s: Core): Image
    requires forall p :: p in s.queue ==> p in s.entries
  {
    Image(Stamped(s.queue, s.entries),
          map p | p in s.entries && Returning(s.entries[p]) :: s.entries[p].queuedAt,
          map p | p in s.entries && s.entries[p].status.Matched? :: MatchOf(s.entries[p]))
  }

  /** A waiting player and the time the wait began. */
  type QueuedAt = (string, int)

  datatype Snapshot = Snapshot(queued: seq<QueuedAt>, matched: seq<Match>)

  /** `tail` lists the returning players, each once, in some order. */
  ghost predicate ListsReturning(tail: seq<QueuedAt>, s: Core) {
    && (forall i, j :: 0 <= i < j < |tail| ==> tail[i].0 != tail[j].0)
    && (forall x :: x in tail ==> x.0 in s.entries && Returning(s.entries[x.0]) && x.1 == s.entries[x.0].queuedAt)
    && (forall p :: p in s.entries && Returning(s.entries[p]) ==> (p, s.entries[p].queuedAt) in tail)
  }

  /** The first player on the list has this very match on record. */
  ghost predicate Recorded(m: Match, s: Core) {
    && m.members != []
    && m.members[0] in s.entries
    && s.entries[m.members[0]].status.Matched?
    && MatchOf(s.entries[m.members[0]]) == m
  }

  /** `matched` lists the recorded matches, each match id once, in some order. */
  ghost predicate ListsMatches(matched: seq<Match>, s: Core) {
    && (forall i, j :: 0 <= i < j < |matched| ==> matched[i].matchId != matched[j].matchId)
    && (forall m :: m in matched ==> Recorded(m, s))
    && (forall p :: p in s.entries && s.entries[p].status.Matched? ==> MatchOf(s.entries[p]) in matched)
  }

  /** One of the snapshots `MakeSnapshotLocked` may produce; the hash map fixes no order. */
  ghost predicate IsSnapshotOf(snap: Snapshot, s: Core) {
    && (forall p :: p in s.queue ==> p in s.entries)
    && |s.queue| <= |snap.queued|
    && snap.queued[..|s.queue|] == Stamped(s.queue, s.entries)
    && ListsReturning(snap.queued[|s.queue|..], s)
    && ListsMatches(snap.matched, s)
  }

  // ------------------------------------------------------------------ rebuilding the queue

  /** Put `x` before the first element queued no earlier. */
  function InsertSorted(x: QueuedAt, ys: seq<QueuedAt>): seq<QueuedAt> {
    if ys == [] || x.1 <= ys[0].1 then [x] + ys else [ys[0]] + InsertSorted(x, ys[1..])
  }

  function StableSort(xs: seq<QueuedAt>): seq<QueuedAt> {
    if xs == [] then [] else InsertSorted(xs[0], StableSort(xs[1..]))
  }

  predicate TooLate(x: QueuedAt, now: int, lim: Limits) {
    now - x.1 >= lim.matchTimeout
  }

  datatype Report = Report(queued: nat, matched: nat, dropped: nat, timedOut: nat, expiredResults: nat)

  datatype Rebuilt = Rebuilt(core: Core, report: Report)

  function AdmitQueued(r: Rebuilt, x: QueuedAt, now: int, lim: Limits): Rebuilt {
    if x.0 in r.core.entries then r.(report := r.report.(dropped := r.report.dropped + 1))
    else if TooLate(x, now, lim) then r.(report := r.report.(timedOut := r.report.timedOut + 1))
    else
      Rebuilt(r.core.(queue := r.core.queue + [x.0], entries := r.core.entries[x.0 := FreshEntry("", x.1)]),
              r.report.(queued := r.report.queued + 1))
  }

  function AdmitAllQueued(r: Rebuilt, xs: seq<QueuedAt>, now: int, lim: Limits): Rebuilt
    decreases |xs|
  {
    if xs == [] then r else AdmitAllQueued(AdmitQueued(r, xs[0], now, lim), xs[1..], now, lim)
  }

  function RestoredMatch(m: Match): Entry {
    Entry(Matched, "", m.matchId, m.roomId, m.members, 0, m.stamp, false, false)
  }

  predicate Stale(m: Match, now: int, lim: Limits) {
    now - m.stamp >= lim.resultTtl
  }

  function AdmitMatch(r: Rebuilt, m: Match, now: int, lim: Limits): Rebuilt {
    if Stale(m, now, lim) then r.(report := r.report.(expiredResults := r.report.expiredResults + |m.members|))
    else if exists p :: p in m.members && p in r.core.entries then
      r.(report := r.report.(dropped := r.report.dropped + 1))
    else
      Rebuilt(r.core.(entries := r.core.entries + map p | p in m.members :: RestoredMatch(m)),
              r.report.(matched := r.report.matched + |m.members|))
  }

  function AdmitAllMatches(r: Rebuilt, ms: seq<Match>, now: int, lim: Limits): Rebuilt
    decreases |ms|
  {
    if ms == [] then r else AdmitAllMatches(AdmitMatch(r, ms[0], now, lim), ms[1..], now, lim)
  }

  const EmptyCore := Core([], map[], false)

  /** The whole of `Restore` after the rows were read, on a queue in state `s`. `bad` rows were dropped. */
  function Restore(s: Core, snap: Snapshot, bad: nat, now: int, lim: Limits): Rebuilt {
    var r0 := Rebuilt(s, Report(0, 0, bad, 0, 0));
    var r1 := AdmitAllQueued(r0, StableSort(snap.queued), now, lim);
    var r2 := AdmitAllMatches(r1, snap.matched, now, lim);
    r2.(core := Sweep(r2.core, now, lim))
  }
}
