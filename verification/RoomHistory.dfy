/** The ring of the last 128 snapshots against the unbounded log it stands for. */
module RoomHistory {
  import opened Wrappers
  import opened RoomCore

  /** What the ring holds when `log` is everything ever recorded. */
  function Ring(log: seq<Snapshot>): seq<Snapshot> {
    if |log| <= HISTORY then log else log[|log| - HISTORY..]
  }

  /** The last snapshot recorded for frame `f`. */
  function LastWith(log: seq<Snapshot>, f: int): Option<Snapshot> {
    if log == [] then None
    else if log[|log| - 1].frame == f then Some(log[|log| - 1])
    else LastWith(log[..|log| - 1], f)
  }

  function AddFrame(result: seq<Snapshot>, s: Snapshot, since: int): seq<Snapshot> {
    if s.frame <= since then result
    else if result != [] && result[|result| - 1].frame == s.frame then result[..|result| - 1] + [s]
    else result + [s]
  }

  /** `SnapshotsAfter`: frames beyond `since`, a later snapshot of the same frame replacing the earlier. */
  function After(h: seq<Snapshot>, since: int): seq<Snapshot> {
    if h == [] then [] else AddFrame(After(h[..|h| - 1], since), h[|h| - 1], since)
  }

  function Newest(h: seq<Snapshot>): int
    requires h != []
  {
    h[|h| - 1].frame
  }

  /** Frames since + 1, since + 2, ... up to the newest, each once, each as last recorded. */
  ghost predicate ExactlyAfter(result: seq<Snapshot>, h: seq<Snapshot>, since: int)
    requires h != []
  {
    && |result| == (if Newest(h) > since then Newest(h) - since else 0)
    && forall k :: 0 <= k < |result| ==>
         result[k].frame == since + 1 + k && LastWith(h, since + 1 + k) == Some(result[k])
  }

  lemma {:induction false} AfterIsExact(h: seq<Snapshot>, since: int)
    requires h != [] && Steps(h) && h[0].frame - 1 <= since
    ensures ExactlyAfter(After(h, since), h, since)
  {
    var before, s := h[..|h| - 1], h[|h| - 1];
    if before == [] {
      assert After(before, since) == [];
    } else {
      assert Steps(before) && before[0] == h[0];
      AfterIsExact(before, since);
      assert h[|before| - 1].frame <= s.frame <= h[|before| - 1].frame + 1;
      AddKeepsExact(before, s, After(before, since), since);
      assert h == before + [s];
    }
  }

  lemma AddKeepsExact(before: seq<Snapshot>, s: Snapshot, result: seq<Snapshot>, since: int)
    requires before != [] && ExactlyAfter(result, before, since)
    requires Newest(before) <= s.frame <= Newest(before) + 1
    ensures ExactlyAfter(AddFrame(result, s, since), before + [s], since)
  {
    var h := before + [s];
    assert h[..|h| - 1] == before;
    var all := AddFrame(result, s, since);
    forall k | 0 <= k < |all|
      ensures all[k].frame == since + 1 + k && LastWith(h, since + 1 + k) == Some(all[k])
    {
      if k < |all| - 1 {
        assert all[k] == result[k];
      }
    }
  }

  lemma {:induction false} SuffixKeepsLast(log: seq<Snapshot>, n: nat, f: int)
    requires n <= |log|
    requires LastWith(log[n..], f).Some?
    ensures LastWith(log, f) == LastWith(log[n..], f)
  {
    var h := log[n..];
    assert h[|h| - 1] == log[|log| - 1];
    if log[|log| - 1].frame != f {
      assert h[..|h| - 1] == log[..|log| - 1][n..];
      SuffixKeepsLast(log[..|log| - 1], n, f);
    }
  }

  lemma RingSteps(log: seq<Snapshot>)
    requires log != [] && Steps(log)
    ensures Ring(log) != [] && Steps(Ring(log)) && Newest(Ring(log)) == Newest(log)
  {
  }

  function Oldest(log: seq<Snapshot>): int {
    if log == [] then 0 else Ring(log)[0].frame
  }

  lemma {:induction false} LaterFrame(log: seq<Snapshot>, i: nat, j: nat)
    requires Steps(log) && i <= j < |log|
    ensures log[i].frame <= log[j].frame
  {
    if i < j {
      LaterFrame(log, i, j - 1);
    }
  }

  /** The oldest frame held never falls while the log grows. */
  lemma OldestNeverFalls(log: seq<Snapshot>, more: seq<Snapshot>)
    requires log != [] && log <= more && Steps(more)
    ensures Oldest(log) <= Oldest(more)
  {
    LaterFrame(more, if |log| <= HISTORY then 0 else |log| - HISTORY,
               if |more| <= HISTORY then 0 else |more| - HISTORY);
  }

  /** The ring is the suffix of the log: one more snapshot pushed, the oldest dropped if there are too many. */
  lemma RingPush(log: seq<Snapshot>, s: Snapshot)
    ensures var h := Ring(log) + [s];
      Ring(log + [s]) == if |h| > HISTORY then h[1..] else h
  {
  }

  // ------------------------------------------------------------------ the window query

  datatype WindowOutcome = Complete | Incomplete | Ahead

  datatype Window = Window(outcome: WindowOutcome, snapshots: seq<Snapshot>, oldest: int, latest: int)

  /** `GetSnapshotsSince` on a room whose ring is `h` and whose frame is `frame`. */
  function WindowOf(h: seq<Snapshot>, frame: int, since: int): Window
    requires h != []
  {
    var snapshots, oldest := After(h, since), h[0].frame;
    if since > frame then Window(Ahead, snapshots, oldest, frame)
    else if since + 1 < oldest then Window(Incomplete, snapshots, oldest, frame)
    else Window(Complete, snapshots, oldest, frame)
  }

  lemma RingAnswersForLog(log: seq<Snapshot>, since: int)
    requires log != [] && Steps(log)
    requires Ring(log)[0].frame - 1 <= since
    ensures ExactlyAfter(After(Ring(log), since), log, since)
    ensures Ring(log) == log[if |log| > 128 then |log| - 128 else 0..]
  {
    var h := Ring(log);
    var result := After(h, since);
    var n := if |log| <= HISTORY then 0 else |log| - HISTORY;
    assert log[n..] == h;
    RingSteps(log);
    AfterIsExact(h, since);
    forall k | 0 <= k < |result| ensures LastWith(log, since + 1 + k) == Some(result[k]) {
      assert LastWith(h, since + 1 + k) == Some(result[k]);
      SuffixKeepsLast(log, n, since + 1 + k);
    }
  }

  /** The bounded ring answers as the unbounded log would, and says so exactly when it can: the query is
      complete if and only if oldest - 1 <= since <= frame, and then it returns every missing frame
      once, in order, each being the last snapshot the room ever recorded for that frame. */
  lemma WindowRefinesLog(r: Room, since: int)
    requires RoomOk(r)
    ensures Ring(r.log) != []
    ensures var w := WindowOf(Ring(r.log), r.frame, since);
      && (w.outcome == Complete <==> w.oldest - 1 <= since <= r.frame)
      && (w.outcome == Ahead <==> r.frame < since)
      && (w.outcome == Complete ==> |w.snapshots| == r.frame - since && ExactlyAfter(w.snapshots, r.log, since))
  {
    RingSteps(r.log);
    RingOldest(Ring(r.log));
    if Ring(r.log)[0].frame - 1 <= since {
      RingAnswersForLog(r.log, since);
    }
  }

  lemma {:induction false} AfterAll(h: seq<Snapshot>, a: int, b: int)
    requires forall i :: 0 <= i < |h| ==> a < h[i].frame && b < h[i].frame
    ensures After(h, a) == After(h, b)
  {
    if h != [] {
      AfterAll(h[..|h| - 1], a, b);
    }
  }

  lemma HeldAfter(log: seq<Snapshot>, since: int)
    requires log != [] && Steps(log)
    ensures Ring(log) != []
    ensures var oldest := Ring(log)[0].frame;
      ExactlyAfter(After(Ring(log), since), log, if since < oldest - 1 then oldest - 1 else since)
  {
    var h := Ring(log);
    RingSteps(log);
    RingOldest(h);
    if h[0].frame - 1 <= since {
      RingAnswersForLog(log, since);
    } else {
      AfterAll(h, since, h[0].frame - 1);
      RingAnswersForLog(log, h[0].frame - 1);
    }
  }

  /** The frames of `h` go from `oldest` to `latest`. */
  ghost predicate Spans(h: seq<Snapshot>, oldest: int, latest: int) {
    && (exists i :: 0 <= i < |h| && h[i].frame == oldest)
    && (forall i :: 0 <= i < |h| ==> oldest <= h[i].frame <= latest)
  }

  lemma RingSpans(log: seq<Snapshot>)
    requires log != [] && Steps(log)
    ensures Ring(log) != [] && Spans(Ring(log), Ring(log)[0].frame, Newest(log))
  {
    RingSteps(log);
    RingOldest(Ring(log));
  }

  /** Complete or not, the answer says which frames the room holds, from the oldest to its own, and has every
      one of them that is newer than `since`, once, in order and as last recorded. */
  lemma WindowHasWhatIsHeld(r: Room, since: int)
    requires RoomOk(r)
    ensures Ring(r.log) != []
    ensures var w := WindowOf(Ring(r.log), r.frame, since);
      && w.latest == r.frame && Spans(Ring(r.log), w.oldest, w.latest)
      && ExactlyAfter(w.snapshots, r.log, if since < w.oldest - 1 then w.oldest - 1 else since)
  {
    RingSpans(r.log);
    HeldAfter(r.log, since);
  }

  lemma {:induction false} RingOldest(h: seq<Snapshot>)
    requires h != [] && Steps(h)
    ensures h[0].frame <= Newest(h)
    ensures forall i :: 0 <= i < |h| ==> h[0].frame <= h[i].frame <= Newest(h)
  {
    if |h| > 1 {
      var before := h[..|h| - 1];
      assert Steps(before);
      RingOldest(before);
      forall i | 0 <= i < |h| ensures h[0].frame <= h[i].frame <= Newest(h) {
        if i < |before| {
          assert before[i] == h[i];
        }
      }
    }
  }
}
