/** Runs of the hub, from any start and for any room, in which `session.ready` is not what its documentation says. */
module StreamExamples {
  import opened Wrappers
  import opened Seqs
  import opened RoomCore
  import opened RoomHistory
  import opened StreamText
  import opened StreamCore
  import opened StreamProtocol
  import opened StreamResume
  import opened StreamTheorems

  /** A subscription as `Subscribe` registers it. */
  function NewSub(player: string, room: string, from: Option<int>): Sub {
    Sub(player, room, from, false, true, false, 0, 0, false, 0, None)
  }

  function EmptyReport(readies: set<nat>): Report {
    Report(map[], {}, map[], readies, {}, {})
  }

  lemma PollGoes(s: Sys, q: Sys)
    requires SysInv(s) && s.work.Some? && s.work.value.fills == [] && s.work.value.polls != []
    requires PollReady(s, s.work.value) && q == PollStep(s, s.work.value, true)
    ensures Goes(s, PollEv(true), q)
  {
  }

  // ------------------------------------------------------------------ the state before session.ready

  /** `s` with its one subscription, live from the start. */
  function One(s: Sys, player: string, room: string, now: int, pushed: map<string, string>, work: Option<Work>,
               got: seq<Sent>, how: FirstPush): Sys {
    var id := s.hub.nextId;
    s.(hub := Hub(map[id := Clocked(NewSub(player, room, None), now)], pushed, id + 1), work := work,
       got := map[id := got], tracks := map[id := Track(player, room, None, Direct)], first := map[id := how])
  }

  function OneWork(s: Sys, now: int, polls: seq<Poll>, readies: seq<nat>, failed: set<nat>): Option<Work> {
    Some(Work(now, [], polls, readies, [], EmptyReport({s.hub.nextId}).(failed := failed)))
  }

  function Subscribing(s: Sys, player: string, room: string): Sys {
    One(s, player, room, 0, s.hub.pushed - {room}, None, [], NotYet)
  }

  function Querying(s: Sys, player: string, room: string, now: int): Sys {
    var id := s.hub.nextId;
    One(s, player, room, now, s.hub.pushed - {room}, OneWork(s, now, [Query(room, [id])], [id], {}), [], NotYet)
  }

  function Comparing(s: Sys, player: string, room: string, now: int): Sys
    requires room in s.world
  {
    var id, state := s.hub.nextId, SnapshotOf(s.world[room]);
    One(s, player, room, now, s.hub.pushed - {room}, OneWork(s, now, [Compare(room, state, [id])], [id], {}), [],
        NotYet)
  }

  function PushedTable(s: Sys, room: string): map<string, string>
    requires room in s.world
  {
    var state := SnapshotOf(s.world[room]);
    SetPushed(s.hub.pushed - {room}, room, state, Terminal(state))
  }

  function Pushing(s: Sys, player: string, room: string, now: int): Sys
    requires room in s.world
  {
    var id, state := s.hub.nextId, SnapshotOf(s.world[room]);
    One(s, player, room, now, PushedTable(s, room), OneWork(s, now, [Push(room, state, [id])], [id], {}), [], NotYet)
  }

  /** After the push, with what is left of the first events. */
  function Pushed(s: Sys, player: string, room: string, now: int, readies: seq<nat>, got: seq<Sent>): Sys
    requires room in s.world
  {
    var state := SnapshotOf(s.world[room]);
    One(s, player, room, now, PushedTable(s, room),
        OneWork(s, now, [], readies, if Terminal(state) then {s.hub.nextId} else {}), got, Shown)
  }

  function OnePlan(s: Sys, room: string): Plan {
    Plan([], map[room := [s.hub.nextId]], [s.hub.nextId], [])
  }

  lemma OneIsPlanned(id: nat, player: string, room: string, now: int, w: Work)
    requires now != 0
    requires w == Work(now, [], [Query(room, [id])], [id], [], EmptyReport({id}))
    ensures BeginsWith(map[id := Clocked(NewSub(player, room, None), now)], now,
                       Plan([], map[room := [id]], [id], []), [room], w)
  {
    assert Elems([room]) == {room} && Elems([id]) == {id} && Elems<nat>([]) == {};
  }

  lemma OneBegins(s: Sys, player: string, room: string, now: int)
    requires now != 0 && SysInv(Subscribing(s, player, room))
    ensures Goes(Subscribing(s, player, room), BeginEv(now, OnePlan(s, room), [room]), Querying(s, player, room, now))
  {
    var id, q := s.hub.nextId, Querying(s, player, room, now);
    assert AllClocked(Subscribing(s, player, room).hub, now).subs
        == map[id := Clocked(NewSub(player, room, None), now)];
    OneIsPlanned(id, player, room, now, q.work.value);
    BeginGoes(Subscribing(s, player, room), now, OnePlan(s, room), [room], q.work.value, q);
  }

  lemma OneQueries(s: Sys, player: string, room: string, now: int)
    requires room in s.world && SysInv(Querying(s, player, room, now))
    ensures Goes(Querying(s, player, room, now), PollEv(true), Comparing(s, player, room, now))
  {
    var p := Compare(room, SnapshotOf(s.world[room]), [s.hub.nextId]);
    assert [p] + [Query(room, [s.hub.nextId])][1..] == [p];
    PollGoes(Querying(s, player, room, now), Comparing(s, player, room, now));
  }

  lemma OneCompares(s: Sys, player: string, room: string, now: int)
    requires room in s.world && SysInv(Comparing(s, player, room, now))
    ensures Goes(Comparing(s, player, room, now), PollEv(true), Pushing(s, player, room, now))
  {
    var state, ids := SnapshotOf(s.world[room]), [s.hub.nextId];
    SignatureNotEmpty(state);
    assert [Push(room, state, ids)] + [Compare(room, state, ids)][1..] == [Push(room, state, ids)];
    PollGoes(Comparing(s, player, room, now), Pushing(s, player, room, now));
  }

  lemma PushedToOne(id: nat, state: Snapshot)
    ensures map[id := []][id := [] + [StateSent(state)]] == map[id := [StateSent(state)]]
    ensures AfterPush(map[id := NotYet], [id], Shown) == map[id := Shown]
    ensures {} + {id} == {id} && [id][1..] == []
  {
    assert [] + [StateSent(state)] == [StateSent(state)];
  }

  lemma OnePushStep(s: Sys, player: string, room: string, now: int)
    requires room in s.world
    ensures var q := Pushing(s, player, room, now);
      && PollReady(q, q.work.value)
      && PollStep(q, q.work.value, true)
         == Pushed(s, player, room, now, [s.hub.nextId], [StateSent(SnapshotOf(s.world[room]))])
  {
    var state := SnapshotOf(s.world[room]);
    PushedToOne(s.hub.nextId, state);
    assert [] + [Push(room, state, [s.hub.nextId])][1..] == [];
  }

  lemma OneReadyStep(s: Sys, player: string, room: string, now: int)
    requires room in s.world
    ensures var state := StateSent(SnapshotOf(s.world[room]));
      var q := Pushed(s, player, room, now, [s.hub.nextId], [state]);
      Wrote(q, q.work.value.(readies := [s.hub.nextId][1..]), s.hub.nextId, ReadySent(player, room), true)
      == Pushed(s, player, room, now, [], [state, ReadySent(player, room)])
  {
    var state := StateSent(SnapshotOf(s.world[room]));
    assert [s.hub.nextId][1..] == [];
    assert [state] + [ReadySent(player, room)] == [state, ReadySent(player, room)];
  }

  lemma OneIsReady(s: Sys, player: string, room: string, now: int, q1: Sys, q2: Sys)
    requires room in s.world && SysInv(q1)
    requires q1 == Pushed(s, player, room, now, [s.hub.nextId], [StateSent(SnapshotOf(s.world[room]))])
    requires q2 == Pushed(s, player, room, now, [], [StateSent(SnapshotOf(s.world[room])), ReadySent(player, room)])
    ensures Goes(q1, ReadyEv(true), q2)
  {
    OneReadyStep(s, player, room, now);
    ReadyGoes(q1, q2);
  }

  /** Up to the comparison of its room's state. */
  lemma OneToCompare(s: Sys, player: string, room: string, now: int)
    requires Start(s) && SysInv(s) && room in s.world && now != 0
    ensures Leads(s, [SubscribeEv(player, room, None, false), BeginEv(now, OnePlan(s, room), [room]), PollEv(true)],
                  Comparing(s, player, room, now))
    ensures SysInv(Comparing(s, player, room, now))
  {
    var subscribe, begin := SubscribeEv(player, room, None, false), BeginEv(now, OnePlan(s, room), [room]);
    var s1, s2, s3 := Subscribing(s, player, room), Querying(s, player, room, now), Comparing(s, player, room, now);
    Onward(s, subscribe, s1);
    OneBegins(s, player, room, now);
    Onward(s1, begin, s2);
    OneQueries(s, player, room, now);
    Onward(s2, PollEv(true), s3);
    ThreeSteps(s, subscribe, s1, begin, s2, PollEv(true), s3);
  }

  lemma OneFromCompare(s: Sys, player: string, room: string, now: int, last: Sys)
    requires room in s.world && SysInv(Comparing(s, player, room, now))
    requires last == Pushed(s, player, room, now, [], [StateSent(SnapshotOf(s.world[room])), ReadySent(player, room)])
    ensures Leads(Comparing(s, player, room, now), [PollEv(true), PollEv(true), ReadyEv(true)], last)
  {
    var id, state := s.hub.nextId, StateSent(SnapshotOf(s.world[room]));
    var s3, s4 := Comparing(s, player, room, now), Pushing(s, player, room, now);
    var s5 := Pushed(s, player, room, now, [id], [state]);
    OneCompares(s, player, room, now);
    Onward(s3, PollEv(true), s4);
    OnePushStep(s, player, room, now);
    PollGoes(s4, s5);
    Onward(s4, PollEv(true), s5);
    OneIsReady(s, player, room, now, s5, last);
    ThreeSteps(s3, PollEv(true), s4, PollEv(true), s5, ReadyEv(true), last);
  }

  /** From any start, for any room that answers: the first subscriber is sent the room's state first and
      `session.ready` second. */
  lemma StateComesBeforeReady(s: Sys, player: string, room: string, now: int)
    requires Start(s) && SysInv(s) && room in s.world && now != 0
    ensures exists last ::
      && Leads(s, [SubscribeEv(player, room, None, false), BeginEv(now, OnePlan(s, room), [room]),
                   PollEv(true), PollEv(true), PollEv(true), ReadyEv(true)], last)
      && last.got == map[s.hub.nextId := [StateSent(SnapshotOf(s.world[room])), ReadySent(player, room)]]
  {
    var last := Pushed(s, player, room, now, [], [StateSent(SnapshotOf(s.world[room])), ReadySent(player, room)]);
    OneToCompare(s, player, room, now);
    OneFromCompare(s, player, room, now, last);
    SixEvents(s, SubscribeEv(player, room, None, false), BeginEv(now, OnePlan(s, room), [room]), PollEv(true),
              Comparing(s, player, room, now), PollEv(true), PollEv(true), ReadyEv(true), last);
  }

  // ------------------------------------------------------------------ session.ready and no state

  /** `s` with a subscription that resumes from its room's frame, and a live one on the same room. */
  function Two(s: Sys, a: string, b: string, room: string, now: int, pushed: map<string, string>, work: Option<Work>,
               gotA: seq<Sent>, gotB: seq<Sent>, how: FirstPush): Sys
    requires room in s.world
  {
    var id, from := s.hub.nextId, Some(s.world[room].frame);
    s.(hub := Hub(map[id := Clocked(NewSub(a, room, from), now), id + 1 := Clocked(NewSub(b, room, None), now)],
                  pushed, id + 2),
       work := work, got := map[id := gotA, id + 1 := gotB],
       tracks := map[id := Track(a, room, from, Stage.Waiting), id + 1 := Track(b, room, None, Direct)],
       first := map[id + 1 := how])
  }

  function TwoWork(s: Sys, now: int, fills: seq<Fill>, polls: seq<Poll>, readies: seq<nat>, reset: bool): Option<Work> {
    var r := EmptyReport({s.hub.nextId + 1});
    Some(Work(now, fills, polls, readies, [],
              if reset then r.(kept := {s.hub.nextId}, resets := map[s.hub.nextId := IdCurrent]) else r))
  }

  function TwoPlan(s: Sys, room: string): Plan {
    Plan([s.hub.nextId], map[room := [s.hub.nextId + 1]], [s.hub.nextId + 1], [])
  }

  function BothSubscribed(s: Sys, a: string, b: string, room: string): Sys
    requires room in s.world
  {
    Two(s, a, b, room, 0, s.hub.pushed - {room}, None, [], [], NotYet)
  }

  /** Before the back-fill's query, its state call, or its write. */
  function Filling(s: Sys, a: string, b: string, room: string, now: int, f: Fill): Sys
    requires room in s.world
  {
    var ids := [s.hub.nextId + 1];
    Two(s, a, b, room, now, s.hub.pushed - {room}, TwoWork(s, now, [f], [Query(room, ids)], ids, false), [], [], NotYet)
  }

  /** Before the table of pushed states learns of the reset. */
  function Remembering(s: Sys, a: string, b: string, room: string, now: int): Sys
    requires room in s.world
  {
    var id, ids, state := s.hub.nextId, [s.hub.nextId + 1], SnapshotOf(s.world[room]);
    Two(s, a, b, room, now, s.hub.pushed - {room},
        TwoWork(s, now, [NoteReset(id, room, IdCurrent, false, state, true)], [Query(room, ids)], ids, false),
        [ResetSent(IdCurrent, state)], [], NotYet)
  }

  /** After the reset, with what is left of the tick. */
  function AfterResetOf(s: Sys, a: string, b: string, room: string, now: int, polls: seq<Poll>, readies: seq<nat>,
                        gotB: seq<Sent>, how: FirstPush): Sys
    requires room in s.world
  {
    var state := SnapshotOf(s.world[room]);
    Two(s, a, b, room, now, SetPushed(s.hub.pushed - {room}, room, state, false),
        TwoWork(s, now, [], polls, readies, true), [ResetSent(IdCurrent, state)], gotB, how)
  }

  lemma TwoSubscribe(s: Sys, a: string, b: string, room: string)
    requires Start(s) && SysInv(s) && room in s.world
    ensures Goes(s, SubscribeEv(a, room, Some(s.world[room].frame), false), Newcomer(s, a, room))
    ensures Goes(Newcomer(s, a, room), SubscribeEv(b, room, None, false), BothSubscribed(s, a, b, room))
  {
    Onward(s, SubscribeEv(a, room, Some(s.world[room].frame), false), Newcomer(s, a, room));
    assert s.hub.pushed - {room} - {room} == s.hub.pushed - {room};
  }

  lemma TwoArePlanned(id: nat, a: string, b: string, room: string, from: int, now: int, w: Work)
    requires now != 0
    requires w == Work(now, [Ask(id, room, from)], [Query(room, [id + 1])], [id + 1], [], EmptyReport({id + 1}))
    ensures BeginsWith(map[id := Clocked(NewSub(a, room, Some(from)), now),
                           id + 1 := Clocked(NewSub(b, room, None), now)],
                       now, Plan([id], map[room := [id + 1]], [id + 1], []), [room], w)
  {
    assert Elems([room]) == {room} && Elems([id + 1]) == {id + 1} && Elems<nat>([]) == {};
  }

  lemma TwoClocked(s: Sys, a: string, b: string, room: string, now: int, pushed: map<string, string>,
                   work: Option<Work>)
    requires room in s.world
    ensures var q := Two(s, a, b, room, 0, pushed, None, [], [], NotYet);
      && AllClocked(q.hub, now) == Two(s, a, b, room, now, pushed, work, [], [], NotYet).hub
      && q.(hub := AllClocked(q.hub, now), work := work) == Two(s, a, b, room, now, pushed, work, [], [], NotYet)
  {
  }

  lemma TwoBegin(s: Sys, a: string, b: string, room: string, now: int, q0: Sys, q1: Sys)
    requires now != 0 && room in s.world && SysInv(q0) && q0 == BothSubscribed(s, a, b, room)
    requires q1 == Filling(s, a, b, room, now, Ask(s.hub.nextId, room, s.world[room].frame))
    ensures Goes(q0, BeginEv(now, TwoPlan(s, room), [room]), q1)
  {
    TwoArePlanned(s.hub.nextId, a, b, room, s.world[room].frame, now, q1.work.value);
    TwoClocked(s, a, b, room, now, s.hub.pushed - {room}, q1.work);
    BeginGoes(q0, now, TwoPlan(s, room), [room], q1.work.value, q1);
  }

  lemma TwoAskStep(s: Sys, a: string, b: string, room: string, now: int)
    requires room in s.world && RoomOk(s.world[room])
    ensures Ring(s.world[room].log) != []
    ensures var id := s.hub.nextId;
      var q := Filling(s, a, b, room, now, Ask(id, room, s.world[room].frame));
      AskStep(q, q.work.value, true) == Filling(s, a, b, room, now, Reset(id, room, IdCurrent, false))
  {
    var r := s.world[room];
    WindowRefinesLog(r, r.frame);
    RingSteps(r.log);
    RingOldest(Ring(r.log));
    var f := Reset(s.hub.nextId, room, IdCurrent, false);
    assert [f] + [Ask(s.hub.nextId, room, r.frame)][1..] == [f];
  }

  lemma TwoFetchStep(s: Sys, a: string, b: string, room: string, now: int)
    requires room in s.world
    ensures var id := s.hub.nextId;
      var q := Filling(s, a, b, room, now, Reset(id, room, IdCurrent, false));
      FetchStep(q, q.work.value, true)
      == Filling(s, a, b, room, now, WriteReset(id, room, IdCurrent, false, SnapshotOf(s.world[room])))
  {
    var f := WriteReset(s.hub.nextId, room, IdCurrent, false, SnapshotOf(s.world[room]));
    assert [f] + [Reset(s.hub.nextId, room, IdCurrent, false)][1..] == [f];
  }

  lemma TwoWriteStep(s: Sys, a: string, b: string, room: string, now: int)
    requires room in s.world
    ensures var q := Filling(s, a, b, room, now,
                             WriteReset(s.hub.nextId, room, IdCurrent, false, SnapshotOf(s.world[room])));
      ResetStep(q, q.work.value, true) == Remembering(s, a, b, room, now)
  {
    var id, state := s.hub.nextId, SnapshotOf(s.world[room]);
    var f := NoteReset(id, room, IdCurrent, false, state, true);
    assert [] + [ResetSent(IdCurrent, state)] == [ResetSent(IdCurrent, state)];
    assert [f] + [WriteReset(id, room, IdCurrent, false, state)][1..] == [f];
  }

  /** The reset leaves the room's state in the table. */
  lemma TwoNoteStep(s: Sys, a: string, b: string, room: string, now: int)
    requires room in s.world
    ensures var ids := [s.hub.nextId + 1];
      var q := Remembering(s, a, b, room, now);
      NoteResetStep(q, q.work.value) == AfterResetOf(s, a, b, room, now, [Query(room, ids)], ids, [], NotYet)
  {
    var id, state := s.hub.nextId, SnapshotOf(s.world[room]);
    assert [NoteReset(id, room, IdCurrent, false, state, true)][1..] == [];
    assert {} + {id} == {id};
  }

  lemma TwoAsk(s: Sys, a: string, b: string, room: string, now: int, q1: Sys, q2: Sys)
    requires room in s.world && SysInv(q1)
    requires q1 == Filling(s, a, b, room, now, Ask(s.hub.nextId, room, s.world[room].frame))
    requires q2 == Filling(s, a, b, room, now, Reset(s.hub.nextId, room, IdCurrent, false))
    ensures Goes(q1, FillEv(true), q2)
  {
    FillFacts(q1);
    TwoAskStep(s, a, b, room, now);
    FillGoes(q1, q2);
  }

  lemma TwoFetch(s: Sys, a: string, b: string, room: string, now: int, q1: Sys, q2: Sys)
    requires room in s.world && SysInv(q1)
    requires q1 == Filling(s, a, b, room, now, Reset(s.hub.nextId, room, IdCurrent, false))
    requires q2 == Filling(s, a, b, room, now,
                           WriteReset(s.hub.nextId, room, IdCurrent, false, SnapshotOf(s.world[room])))
    ensures Goes(q1, FillEv(true), q2)
  {
    FillFacts(q1);
    TwoFetchStep(s, a, b, room, now);
    FillGoes(q1, q2);
  }

  lemma TwoWrite(s: Sys, a: string, b: string, room: string, now: int, q1: Sys, q2: Sys)
    requires room in s.world && SysInv(q1)
    requires q1 == Filling(s, a, b, room, now,
                           WriteReset(s.hub.nextId, room, IdCurrent, false, SnapshotOf(s.world[room])))
    requires q2 == Remembering(s, a, b, room, now)
    ensures Goes(q1, FillEv(true), q2)
  {
    FillFacts(q1);
    TwoWriteStep(s, a, b, room, now);
    FillGoes(q1, q2);
  }

  lemma TwoNote(s: Sys, a: string, b: string, room: string, now: int, q1: Sys, q2: Sys)
    requires room in s.world && SysInv(q1) && q1 == Remembering(s, a, b, room, now)
    requires q2 == AfterResetOf(s, a, b, room, now, [Query(room, [s.hub.nextId + 1])], [s.hub.nextId + 1], [], NotYet)
    ensures Goes(q1, FillEv(true), q2)
  {
    FillFacts(q1);
    TwoNoteStep(s, a, b, room, now);
    FillGoes(q1, q2);
  }

  /** The live subscription's room answers, but its state is the one the reset left in the table. */
  lemma TwoPolled(s: Sys, a: string, b: string, room: string, now: int)
    requires room in s.world && !Terminal(SnapshotOf(s.world[room]))
    ensures var ids := [s.hub.nextId + 1];
      var q1 := AfterResetOf(s, a, b, room, now, [Query(room, ids)], ids, [], NotYet);
      var q2 := AfterResetOf(s, a, b, room, now, [Compare(room, SnapshotOf(s.world[room]), ids)], ids, [], NotYet);
      && PollReady(q1, q1.work.value) && PollStep(q1, q1.work.value, true) == q2
      && PollReady(q2, q2.work.value)
      && PollStep(q2, q2.work.value, true) == AfterResetOf(s, a, b, room, now, [], ids, [], Unchanged)
  {
    var id, state := s.hub.nextId + 1, SnapshotOf(s.world[room]);
    assert [Compare(room, state, [id])] + [Query(room, [id])][1..] == [Compare(room, state, [id])];
    assert [Compare(room, state, [id])][1..] == [];
    assert AfterPush(map[id := NotYet], [id], Unchanged) == map[id := Unchanged];
  }

  lemma TwoReadyStep(s: Sys, a: string, b: string, room: string, now: int)
    requires room in s.world
    ensures var ids := [s.hub.nextId + 1];
      var q := AfterResetOf(s, a, b, room, now, [], ids, [], Unchanged);
      Wrote(q, q.work.value.(readies := ids[1..]), ids[0], ReadySent(b, room), true)
      == AfterResetOf(s, a, b, room, now, [], [], [ReadySent(b, room)], Unchanged)
  {
    assert [s.hub.nextId + 1][1..] == [];
    assert [] + [ReadySent(b, room)] == [ReadySent(b, room)];
  }

  lemma TwoReady(s: Sys, a: string, b: string, room: string, now: int, q1: Sys, q2: Sys)
    requires room in s.world && SysInv(q1)
    requires q1 == AfterResetOf(s, a, b, room, now, [], [s.hub.nextId + 1], [], Unchanged)
    requires q2 == AfterResetOf(s, a, b, room, now, [], [], [ReadySent(b, room)], Unchanged)
    ensures Goes(q1, ReadyEv(true), q2)
  {
    TwoReadyStep(s, a, b, room, now);
    ReadyGoes(q1, q2);
  }

  function TwoEvents(s: Sys, a: string, b: string, room: string, now: int): seq<HubEvent>
    requires room in s.world
  {
    [SubscribeEv(a, room, Some(s.world[room].frame), false), SubscribeEv(b, room, None, false),
     BeginEv(now, TwoPlan(s, room), [room])]
  }

  /** The query, the state call, the write of the reset and the remembering of it. */
  const FOUR_FILLS: seq<HubEvent> := [FillEv(true), FillEv(true), FillEv(true), FillEv(true)]

  lemma ToTheQuery(s: Sys, a: string, b: string, room: string, now: int, q3: Sys)
    requires Start(s) && SysInv(s) && room in s.world && now != 0
    requires q3 == Filling(s, a, b, room, now, Ask(s.hub.nextId, room, s.world[room].frame))
    ensures Leads(s, TwoEvents(s, a, b, room, now), q3) && SysInv(q3)
  {
    var evs := TwoEvents(s, a, b, room, now);
    var q1, q2 := Newcomer(s, a, room), BothSubscribed(s, a, b, room);
    TwoSubscribe(s, a, b, room);
    Onward(q1, evs[1], q2);
    TwoBegin(s, a, b, room, now, q2, q3);
    Onward(q2, evs[2], q3);
    ThreeSteps(s, evs[0], q1, evs[1], q2, evs[2], q3);
  }

  lemma ToTheReset(s: Sys, a: string, b: string, room: string, now: int, q3: Sys, q7: Sys)
    requires room in s.world && SysInv(q3)
    requires q3 == Filling(s, a, b, room, now, Ask(s.hub.nextId, room, s.world[room].frame))
    requires q7 == AfterResetOf(s, a, b, room, now, [Query(room, [s.hub.nextId + 1])], [s.hub.nextId + 1], [], NotYet)
    ensures Leads(q3, FOUR_FILLS, q7) && SysInv(q7)
  {
    var id, state := s.hub.nextId, SnapshotOf(s.world[room]);
    var q4 := Filling(s, a, b, room, now, Reset(id, room, IdCurrent, false));
    var q5 := Filling(s, a, b, room, now, WriteReset(id, room, IdCurrent, false, state));
    var q6 := Remembering(s, a, b, room, now);
    TwoAsk(s, a, b, room, now, q3, q4);
    Onward(q3, FillEv(true), q4);
    TwoFetch(s, a, b, room, now, q4, q5);
    Onward(q4, FillEv(true), q5);
    TwoWrite(s, a, b, room, now, q5, q6);
    Onward(q5, FillEv(true), q6);
    TwoNote(s, a, b, room, now, q6, q7);
    Onward(q6, FillEv(true), q7);
    TwoSteps(q3, FillEv(true), q4, FillEv(true), q5);
    TwoSteps(q5, FillEv(true), q6, FillEv(true), q7);
    assert [FillEv(true)] + [FillEv(true)] == [FillEv(true), FillEv(true)];
    RunsJoin(q3, [FillEv(true), FillEv(true)], q5, [FillEv(true), FillEv(true)], q7);
    assert [FillEv(true), FillEv(true)] + [FillEv(true), FillEv(true)] == FOUR_FILLS;
  }

  lemma FromTheReset(s: Sys, a: string, b: string, room: string, now: int, q5: Sys, q8: Sys)
    requires room in s.world && SysInv(q5) && !Terminal(SnapshotOf(s.world[room]))
    requires q5 == AfterResetOf(s, a, b, room, now, [Query(room, [s.hub.nextId + 1])], [s.hub.nextId + 1], [], NotYet)
    requires q8 == AfterResetOf(s, a, b, room, now, [], [], [ReadySent(b, room)], Unchanged)
    ensures Leads(q5, [PollEv(true), PollEv(true), ReadyEv(true)], q8)
  {
    var ids := [s.hub.nextId + 1];
    var q6 := AfterResetOf(s, a, b, room, now, [Compare(room, SnapshotOf(s.world[room]), ids)], ids, [], NotYet);
    var q7 := AfterResetOf(s, a, b, room, now, [], ids, [], Unchanged);
    TwoPolled(s, a, b, room, now);
    PollGoes(q5, q6);
    Onward(q5, PollEv(true), q6);
    PollGoes(q6, q7);
    Onward(q6, PollEv(true), q7);
    TwoReady(s, a, b, room, now, q7, q8);
    ThreeSteps(q5, PollEv(true), q6, PollEv(true), q7, ReadyEv(true), q8);
  }

  lemma ThreeRuns(s: Sys, a: seq<HubEvent>, s1: Sys, b: seq<HubEvent>, s2: Sys, c: seq<HubEvent>, last: Sys)
    requires Leads(s, a, s1) && Leads(s1, b, s2) && Leads(s2, c, last)
    ensures Leads(s, a + b + c, last)
  {
    RunsJoin(s, a, s1, b, s2);
    RunsJoin(s, a + b, s2, c, last);
  }

  /** From any start, for any room whose game goes on: a live subscriber whose room answers in its first
      tick is sent `session.ready` and no state, because the same tick reset another client of the room. */
  lemma ReadyWithoutState(s: Sys, a: string, b: string, room: string, now: int) returns (last: Sys)
    requires Start(s) && SysInv(s) && room in s.world && now != 0 && !Terminal(SnapshotOf(s.world[room]))
    ensures Leads(s, TwoEvents(s, a, b, room, now) + FOUR_FILLS + [PollEv(true), PollEv(true), ReadyEv(true)], last)
    ensures var id := s.hub.nextId;
      && last.got == map[id := [ResetSent(IdCurrent, SnapshotOf(s.world[room]))], id + 1 := [ReadySent(b, room)]]
      && last.first == map[id + 1 := Unchanged]
  {
    var asking := Filling(s, a, b, room, now, Ask(s.hub.nextId, room, s.world[room].frame));
    var q := AfterResetOf(s, a, b, room, now, [Query(room, [s.hub.nextId + 1])], [s.hub.nextId + 1], [], NotYet);
    last := AfterResetOf(s, a, b, room, now, [], [], [ReadySent(b, room)], Unchanged);
    ToTheQuery(s, a, b, room, now, asking);
    ToTheReset(s, a, b, room, now, asking, q);
    FromTheReset(s, a, b, room, now, q, last);
    ThreeRuns(s, TwoEvents(s, a, b, room, now), asking, FOUR_FILLS, q, [PollEv(true), PollEv(true), ReadyEv(true)],
              last);
  }
}
