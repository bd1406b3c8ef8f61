/** The hub as an object: its tables, the sinks it writes to, and the parts of a tick, each proved
    against StreamCore. Answers of the room service are arguments. */
module StreamHubs {
  import opened Wrappers
  import opened Seqs
  import opened Maps
  import opened RoomCore
  import opened RoomHistory
  import opened StreamText
  import opened StreamCore

  /** A connection: what was written to it, and how many more writes it takes before it breaks for good. */
  datatype Line = Line(sent: seq<Sent>, budget: nat)

  function Put(l: Line, m: Sent): Line {
    if l.budget == 0 then l else Line(l.sent + [m], l.budget - 1)
  }

  class EventSink {
    var line: Line

    constructor (budget: nat)
      ensures line == Line([], budget)
    {
      line := Line([], budget);
    }

    method Write(m: Sent) returns (ok: bool)
      modifies this
      ensures line == Put(old(line), m)
      ensures ok <==> old(line.budget) > 0
    {
      if line.budget == 0 {
        return false;
      }
      line := Line(line.sent + [m], line.budget - 1);
      return true;
    }
  }

  function Min(a: nat, b: nat): nat {
    if a < b then a else b
  }

  datatype SinkRef = SinkRef(id: nat, sink: EventSink)

  function Lines(targets: seq<SinkRef>): (r: seq<Line>)
    reads set t | t in targets :: t.sink
    ensures |r| == |targets| && forall k :: 0 <= k < |r| ==> r[k] == targets[k].sink.line
  {
    if targets == [] then []
    else
      var n := |targets| - 1;
      Lines(targets[..n]) + [targets[n].sink.line]
  }

  /** Who is let go: everybody after the end of the game, otherwise those whose write fails. */
  function Failing(targets: seq<SinkRef>, lines: seq<Line>, all: bool): seq<nat>
    requires |targets| == |lines|
  {
    if targets == [] then []
    else
      var n := |targets| - 1;
      Failing(targets[..n], lines[..n], all) + if all || lines[n].budget == 0 then [targets[n].id] else []
  }

  ghost predicate AllPut(before: seq<Line>, after: seq<Line>, m: Sent) {
    |after| == |before| && forall k :: 0 <= k < |after| ==> after[k] == Put(before[k], m)
  }

  /** The first `i` targets have been written `m`, the others nothing. */
  ghost predicate PutUpTo(targets: seq<SinkRef>, lines: seq<Line>, i: nat, m: Sent)
    reads set t | t in targets :: t.sink
  {
    && |lines| == |targets|
    && forall k :: 0 <= k < |targets| ==> targets[k].sink.line == if k < i then Put(lines[k], m) else lines[k]
  }

  lemma FailingMore(targets: seq<SinkRef>, lines: seq<Line>, i: nat, all: bool)
    requires |targets| == |lines| && i < |targets|
    ensures Failing(targets[..i + 1], lines[..i + 1], all)
      == Failing(targets[..i], lines[..i], all) + if all || lines[i].budget == 0 then [targets[i].id] else []
  {
    assert targets[..i + 1][..i] == targets[..i] && lines[..i + 1][..i] == lines[..i];
  }

  /** Exactly those are let go. */
  lemma {:induction false} LetGoExactly(targets: seq<SinkRef>, lines: seq<Line>, all: bool, id: nat)
    requires |targets| == |lines|
    ensures id in Failing(targets, lines, all)
      <==> exists i :: 0 <= i < |targets| && targets[i].id == id && (all || lines[i].budget == 0)
    ensures all ==> |Failing(targets, lines, all)| == |targets|
    decreases |targets|
  {
    if targets != [] {
      var n := |targets| - 1;
      LetGoExactly(targets[..n], lines[..n], all, id);
      if exists i :: 0 <= i < |targets| && targets[i].id == id && (all || lines[i].budget == 0) {
        var i :| 0 <= i < |targets| && targets[i].id == id && (all || lines[i].budget == 0);
        if i < n {
          assert targets[..n][i].id == id && (all || lines[..n][i].budget == 0);
        }
      }
    }
  }

  lemma FramesMore(pushed: map<string, string>, room: string, snaps: seq<Snapshot>, i: nat)
    requires i < |snaps|
    ensures PushedAfter(pushed, room, snaps[..i + 1])
      == SetPushed(PushedAfter(pushed, room, snaps[..i]), room, snaps[i], Terminal(snaps[i]))
    ensures StatesSent(snaps)[..i + 1] == StatesSent(snaps)[..i] + [StateSent(snaps[i])]
  {
    assert snaps[..i + 1][..i] == snaps[..i];
  }

  class StreamHub {
    var subs: map<nat, Sub>
    var pushed: map<string, string>
    var nextId: nat
    var sinks: map<nat, EventSink>
    var draining: bool

    ghost function Model(): Hub
      reads this
    {
      Hub(subs, pushed, nextId)
    }

    /** Every subscription has a sink of its own and an id that was handed out. */
    ghost predicate Valid()
      reads this
    {
      && nextId > 0
      && sinks.Keys == subs.Keys
      && (forall id :: id in subs ==> 0 < id < nextId)
      && (forall a, b :: a in sinks && b in sinks && sinks[a] == sinks[b] ==> a == b)
    }

    constructor ()
      ensures Valid() && Model() == Hub(map[], map[], 1) && !draining
    {
      subs, pushed, nextId, sinks, draining := map[], map[], 1, map[], false;
    }

    method BeginShutdown()
      requires Valid()
      modifies this`draining
      ensures Valid() && draining
    {
      draining := true;
    }

    /** 0 stands for a refused subscription. */
    method Subscribe(player: string, room: string, sink: EventSink, from: Option<int>, malformed: bool)
      returns (id: nat)
      requires Valid() && sink !in sinks.Values
      modifies this`subs, this`pushed, this`nextId, this`sinks
      ensures Valid()
      ensures if draining then id == 0 && Model() == old(Model()) && sinks == old(sinks)
              else
                && id == old(nextId) && id !in old(subs)
                && Model() == Subscribed(old(Model()), player, room, from, malformed)
                && sinks == old(sinks)[id := sink]
    {
      if draining {
        return 0;
      }
      id := nextId;
      nextId := nextId + 1;
      var sub := Sub(player, room, from, malformed, true, false, 0, 0, false, 0, None);
      pushed := pushed - {room};
      subs := subs[id := sub];
      sinks := sinks[id := sink];
    }

    method Unsubscribe(id: nat)
      requires Valid()
      modifies this`subs, this`sinks
      ensures Valid()
      ensures Model() == Unsubscribed(old(Model()), id) && sinks == old(sinks) - {id}
    {
      if id !in subs {
        assert subs == subs - {id} && sinks == sinks - {id};
        return;
      }
      subs := subs - {id};
      sinks := sinks - {id};
    }

    // ---------------------------------------------------------------- phase one

    method StartClocks(now: int)
      modifies this`subs
      ensures Model() == AllClocked(old(Model()), now)
    {
      ghost var before, after := subs, AllClocked(Model(), now).subs;
      MixedEnds(before, after);
      var todo := subs.Keys;
      while todo != {}
        invariant todo <= before.Keys && subs == Mixed(before, after, todo)
      {
        var id :| id in todo;
        MixedStep(before, after, todo, id);
        if subs[id].created == 0 {
          subs := subs[id := subs[id].(created := now, beat := now)];
        }
        todo := todo - {id};
      }
    }

    /** The collecting loop, run on the subscriptions whose clocks have been started. */
    method CollectTargets(now: int) returns (plan: Plan)
      ensures IsPlan(subs, now, plan)
    {
      var fills, readies, pings: seq<nat>, polls: map<string, seq<nat>> := [], [], [], map[];
      var todo := subs.Keys;
      while todo != {}
        invariant todo <= subs.Keys
        invariant IsPlan(subs - todo, now, Plan(fills, polls, readies, pings))
      {
        var id :| id in todo;
        var sub := subs[id];
        ghost var plan0 := Plan(fills, polls, readies, pings);
        PlanMore(subs, todo, now, plan0, id);
        if sub.pending && (sub.from.Some? || sub.malformed) {
          fills := fills + [id];
          if now - sub.beat >= HEARTBEAT_MS {
            pings := pings + [id];
          }
        } else {
          polls := polls[sub.room := (if sub.room in polls then polls[sub.room] else []) + [id]];
          if !sub.ready {
            readies := readies + [id];
          } else if now - sub.beat >= HEARTBEAT_MS {
            pings := pings + [id];
          }
        }
        assert Plan(fills, polls, readies, pings) == Planned(plan0, id, sub, now);
        todo := todo - {id};
      }
      assert subs - {} == subs;
      return Plan(fills, polls, readies, pings);
    }

    method CollectLocked(now: int) returns (plan: Plan)
      requires Valid()
      modifies this`subs
      ensures Valid() && Model() == AllClocked(old(Model()), now)
      ensures IsPlan(subs, now, plan)
    {
      StartClocks(now);
      plan := CollectTargets(now);
    }

    // ---------------------------------------------------------------- back-filling

    method SetLastPushedState(room: string, s: Snapshot, terminal: bool)
      modifies this`pushed
      ensures pushed == SetPushed(old(pushed), room, s, terminal)
    {
      if terminal {
        pushed := pushed - {room};
        return;
      }
      pushed := pushed[room := StateSignature(s)];
    }

    method SendReset(room: string, sink: EventSink, reason: ResetReason, s: Snapshot, attempted: bool)
      returns (o: Outcome)
      modifies this`pushed, sink
      ensures sink.line == Put(old(sink.line), ResetSent(reason, s))
      ensures pushed == SetPushed(old(pushed), room, s, false)
      ensures o == Outcome(attempted, 0, old(sink.line.budget) == 0,
                           if old(sink.line.budget) > 0 then Some(reason) else None)
    {
      var ok := sink.Write(ResetSent(reason, s));
      SetLastPushedState(room, s, false);
      return Outcome(attempted, 0, !ok, if ok then Some(reason) else None);
    }

    /** The frames a client missed, or a reset with the current state; nothing if the room cannot be
        asked. Only frames, or a reset after a malformed id, count as an attempt. */
    method BackfillSubscription(room: string, since: Option<int>, malformed: bool, sink: EventSink,
                                range: Answer<Window>, state: Answer<Snapshot>) returns (o: Outcome)
      modifies this`pushed, sink
      ensures var sends := FillSends(malformed, since, range, state);
        var reached := Min(|sends|, old(sink.line.budget));
        && sink.line.sent == old(sink.line.sent) + sends[..reached]
        && (o.writeFailed <==> reached < |sends|)
        && (!o.writeFailed ==> (o.attempted <==> Ends(malformed, since, range, state)))
        && (o.reset.Some? ==> |sends| == 1 && sends[0].ResetSent? && o.reset.value == sends[0].reason)
        && (!o.writeFailed && |sends| == 1 && sends[0].ResetSent? ==> o.reset.Some?)
        && (!o.writeFailed && o.attempted && !malformed ==> o.frames == |sends|)
      ensures var frames := MissingFrames(malformed, since, range);
        pushed == if frames != [] then PushedAfter(old(pushed), room, frames[..Min(|frames|, old(sink.line.budget))])
                  else if FillSends(malformed, since, range, state) == [] then old(pushed)
                  else SetPushed(old(pushed), room, state.value, false)
    {
      if malformed {
        if state.Unavailable? {
          return Outcome(false, 0, false, None);
        }
        o := SendReset(room, sink, IdMalformed, state.value, true);
        return;
      }
      if since.None? || range.Unavailable? {
        return Outcome(false, 0, false, None);
      }
      var w := range.value;
      if !w.outcome.Complete? || w.snapshots == [] {
        if state.Unavailable? {
          return Outcome(false, 0, false, None);
        }
        o := SendReset(room, sink, ReasonFor(w), state.value, false);
        return;
      }
      o := SendFrames(room, sink, w.snapshots);
    }

    method SendFrames(room: string, sink: EventSink, snaps: seq<Snapshot>) returns (o: Outcome)
      requires snaps != []
      modifies this`pushed, sink
      ensures var reached := Min(|snaps|, old(sink.line.budget));
        && sink.line.sent == old(sink.line.sent) + StatesSent(snaps)[..reached]
        && pushed == PushedAfter(old(pushed), room, snaps[..reached])
        && o == (if reached < |snaps| then Outcome(false, 0, true, None) else Outcome(true, |snaps|, false, None))
    {
      var i := 0;
      while i < |snaps|
        invariant 0 <= i <= |snaps| && i <= old(sink.line.budget) && sink.line.budget == old(sink.line.budget) - i
        invariant sink.line.sent == old(sink.line.sent) + StatesSent(snaps)[..i]
        invariant pushed == PushedAfter(old(pushed), room, snaps[..i])
      {
        var s := snaps[i];
        var ok := sink.Write(StateSent(s));
        if !ok {
          return Outcome(false, 0, true, None);
        }
        FramesMore(old(pushed), room, snaps, i);
        SetLastPushedState(room, s, s.phase.Finished? || s.phase.Aborted?);
        i := i + 1;
      }
      assert snaps[..i] == snaps;
      return Outcome(true, |snaps|, false, None);
    }

    // ---------------------------------------------------------------- live pushes

    /** Under the lock: has the state moved since the last push? */
    method CompareLocked(room: string, s: Snapshot) returns (changed: bool)
      modifies this`pushed
      ensures (pushed, changed) == Compared(old(pushed), room, s)
    {
      var current := StateSignature(s);
      var previous := if room in pushed then pushed[room] else "";
      var finished := s.phase.Finished? || s.phase.Aborted?;
      changed := current != previous || finished;
      if changed {
        if finished {
          pushed := pushed - {room};
        } else {
          pushed := pushed[room := current];
        }
      }
    }

    /** Every subscriber of the room gets the new state; after the end of the game all are let go. */
    method TickRoom(room: string, targets: seq<SinkRef>, state: Answer<Snapshot>) returns (failed: seq<nat>)
      requires forall i, j :: 0 <= i < j < |targets| ==> targets[i].sink != targets[j].sink
      modifies this`pushed, set t | t in targets :: t.sink
      ensures var quiet := state.Unavailable? || targets == [] || !Compared(old(pushed), room, state.value).1;
        if quiet then
          && failed == [] && pushed == old(pushed) && Lines(targets) == old(Lines(targets))
        else
          && pushed == Compared(old(pushed), room, state.value).0
          && failed == Failing(targets, old(Lines(targets)), Terminal(state.value))
          && AllPut(old(Lines(targets)), Lines(targets), StateSent(state.value))
    {
      if targets == [] || state.Unavailable? {
        return [];
      }
      var changed := CompareLocked(room, state.value);
      if !changed {
        return [];
      }
      failed := PushToAll(targets, state.value);
    }

    static method PushToAll(targets: seq<SinkRef>, s: Snapshot) returns (failed: seq<nat>)
      requires forall i, j :: 0 <= i < j < |targets| ==> targets[i].sink != targets[j].sink
      modifies set t | t in targets :: t.sink
      ensures AllPut(old(Lines(targets)), Lines(targets), StateSent(s))
      ensures failed == Failing(targets, old(Lines(targets)), Terminal(s))
    {
      ghost var lines := Lines(targets);
      failed := [];
      var i := 0;
      while i < |targets|
        invariant 0 <= i <= |targets|
        invariant PutUpTo(targets, lines, i, StateSent(s))
        invariant failed == Failing(targets[..i], lines[..i], Terminal(s))
      {
        FailingMore(targets, lines, i, Terminal(s));
        var ok := PushOne(targets, lines, i, StateSent(s));
        if !ok || s.phase.Finished? || s.phase.Aborted? {
          failed := failed + [targets[i].id];
        }
        i := i + 1;
      }
      assert targets[..i] == targets && lines[..i] == lines;
    }

    static method PushOne(targets: seq<SinkRef>, ghost lines: seq<Line>, i: nat, m: Sent) returns (ok: bool)
      requires i < |targets| && PutUpTo(targets, lines, i, m)
      requires forall k :: 0 <= k < |targets| && k != i ==> targets[k].sink != targets[i].sink
      modifies targets[i].sink
      ensures PutUpTo(targets, lines, i + 1, m)
      ensures ok <==> lines[i].budget > 0
    {
      ok := targets[i].sink.Write(m);
    }

    // ---------------------------------------------------------------- phase four

    method UpdateEach(ids: set<nat>, mark: Mark, now: int)
      modifies this`subs
      ensures subs == Updated(old(subs), ids, mark, now)
    {
      ghost var before, after := subs, Updated(subs, ids, mark, now);
      MixedEnds(before, after);
      assert Mixed(before, after, ids) == before;
      var todo := ids;
      while todo != {}
        invariant todo <= ids && subs == Mixed(before, after, todo)
      {
        var id :| id in todo;
        if id in subs {
          MixedStep(before, after, todo, id);
          subs := subs[id := Marked(mark, id, subs[id], now)];
        } else {
          assert Mixed(before, after, todo - {id}) == Mixed(before, after, todo);
        }
        todo := todo - {id};
      }
    }

    method CommitLocked(r: Report, now: int)
      requires Valid()
      modifies this`subs, this`sinks
      ensures Valid() && Model() == Committed(old(Model()), r, now)
      ensures sinks == old(sinks) - r.failed
    {
      ghost var m0 := subs;
      UpdateEach(r.filled.Keys, FilledMark(r.filled), now);
      ghost var m1 := subs;
      UpdateEach(r.resets.Keys, ResetMark(r.resets), now);
      ghost var m2 := subs;
      UpdateEach(r.kept, BeatMark, now);
      ghost var m3 := subs;
      UpdateEach(r.readies, ReadyMark, now);
      ghost var m4 := subs;
      UpdateEach(r.pings, BeatMark, now);
      CommitIsUpdates(m0, m1, m2, m3, m4, subs, r, now);
      subs := subs - r.failed;
      sinks := sinks - r.failed;
    }
  }

  lemma CommitIsUpdates(m0: map<nat, Sub>, m1: map<nat, Sub>, m2: map<nat, Sub>, m3: map<nat, Sub>,
                        m4: map<nat, Sub>, m5: map<nat, Sub>, r: Report, now: int)
    requires m1 == Updated(m0, r.filled.Keys, FilledMark(r.filled), now)
    requires m2 == Updated(m1, r.resets.Keys, ResetMark(r.resets), now)
    requires m3 == Updated(m2, r.kept, BeatMark, now)
    requires m4 == Updated(m3, r.readies, ReadyMark, now)
    requires m5 == Updated(m4, r.pings, BeatMark, now)
    ensures m5.Keys == m0.Keys
    ensures m5 - r.failed == AllAfterTick(m0, r, now)
  {
  }

  function Updated(subs: map<nat, Sub>, ids: set<nat>, mark: Mark, now: int): map<nat, Sub> {
    map id | id in subs :: MarkedIf(id in ids, mark, id, subs[id], now)
  }

  /** The plan with one more subscription sorted into it. */
  function Planned(p: Plan, id: nat, sub: Sub, now: int): Plan {
    if WantsBackfill(sub) then
      p.(fills := p.fills + [id], pings := if now - sub.beat >= HEARTBEAT_MS then p.pings + [id] else p.pings)
    else
      p.(polls := p.polls[sub.room := (if sub.room in p.polls then p.polls[sub.room] else []) + [id]],
         readies := if !sub.ready then p.readies + [id] else p.readies,
         pings := if sub.ready && now - sub.beat >= HEARTBEAT_MS then p.pings + [id] else p.pings)
  }

  lemma PlanMore(subs: map<nat, Sub>, todo: set<nat>, now: int, p: Plan, id: nat)
    requires id in todo && id in subs && IsPlan(subs - todo, now, p)
    ensures IsPlan(subs - (todo - {id}), now, Planned(p, id, subs[id], now))
  {
    assert subs - (todo - {id}) == (subs - todo)[id := subs[id]];
    FillsMore(subs - todo, p.fills, id, subs[id]);
    PollsMore(subs - todo, p.polls, id, subs[id]);
    ReadiesMore(subs - todo, p.readies, id, subs[id]);
    PingsMore(subs - todo, now, p.pings, id, subs[id]);
  }

  lemma FillsMore(subs: map<nat, Sub>, fills: seq<nat>, id: nat, sub: Sub)
    requires FillsOk(subs, fills) && id !in subs
    ensures FillsOk(subs[id := sub], if WantsBackfill(sub) then fills + [id] else fills)
  {
  }

  lemma PollsMore(subs: map<nat, Sub>, polls: map<string, seq<nat>>, id: nat, sub: Sub)
    requires PollsOk(subs, polls) && id !in subs
    ensures PollsOk(subs[id := sub],
                    if WantsBackfill(sub) then polls
                    else polls[sub.room := (if sub.room in polls then polls[sub.room] else []) + [id]])
  {
    var after := subs[id := sub];
    if WantsBackfill(sub) {
      forall k | IsLive(after, k) ensures after[k].room in polls && k in polls[after[k].room] {
        assert IsLive(subs, k);
      }
      forall room, k | room in polls && k in polls[room] ensures IsLive(after, k) && after[k].room == room {
        assert IsLive(subs, k);
      }
    } else {
      var mine := if sub.room in polls then polls[sub.room] else [];
      var more := polls[sub.room := mine + [id]];
      assert !IsLive(subs, id) && id !in mine;
      assert NoDup(mine + [id]);
      forall k | IsLive(after, k) ensures after[k].room in more && k in more[after[k].room] {
        assert k == id || IsLive(subs, k);
      }
      forall room, k | room in more && k in more[room] ensures IsLive(after, k) && after[k].room == room {
        assert k == id || (room in polls && k in polls[room]);
      }
    }
  }

  lemma ReadiesMore(subs: map<nat, Sub>, readies: seq<nat>, id: nat, sub: Sub)
    requires ReadiesOk(subs, readies) && id !in subs
    ensures ReadiesOk(subs[id := sub], if !WantsBackfill(sub) && !sub.ready then readies + [id] else readies)
  {
  }

  lemma PingsMore(subs: map<nat, Sub>, now: int, pings: seq<nat>, id: nat, sub: Sub)
    requires PingsOk(subs, now, pings) && id !in subs
    ensures PingsOk(subs[id := sub], now, if PingDue(sub, now) then pings + [id] else pings)
  {
  }
}
