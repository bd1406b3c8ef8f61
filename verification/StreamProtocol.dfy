/** The hub's ticking thread among subscribers that come and go and rooms that move on: what a client that
    resumes from a frame receives.

    A tick is the sequence of its room calls, its writes to one connection each and its locked sections;
    between any two of them other threads subscribe and unsubscribe, and rooms take any of their steps. */
module StreamProtocol {
  import opened Wrappers
  import opened Seqs
  import opened RoomCore
  import opened RoomRuns
  import opened RoomHistory
  import opened StreamText
  import opened StreamCore

  /** What is left to do for one back-fill. */
  datatype Fill =
    | Ask(id: nat, room: string, since: int)                              // about to query the history
    | Frames(id: nat, room: string, snaps: seq<Snapshot>, sent: nat)      // about to write the next frame
    | NoteFrame(id: nat, room: string, snaps: seq<Snapshot>, sent: nat)   // about to remember the last one written
    | Reset(id: nat, room: string, reason: ResetReason, counts: bool)     // about to fetch the state
    | WriteReset(id: nat, room: string, reason: ResetReason, counts: bool, s: Snapshot)
    | NoteReset(id: nat, room: string, reason: ResetReason, counts: bool, s: Snapshot, written: bool)

  /** What is left to do for one room's live subscriptions. */
  datatype Poll =
    | Query(room: string, ids: seq<nat>)
    | Compare(room: string, s: Snapshot, ids: seq<nat>)
    | Push(room: string, s: Snapshot, ids: seq<nat>)     // about to write to the first of `ids`

  datatype Work = Work(now: int, fills: seq<Fill>, polls: seq<Poll>, readies: seq<nat>, pings: seq<nat>, report: Report)

  /** How far a subscription has come; `w` answered its query when `log` was everything the room had
      recorded, and `sent` of it are written. */
  datatype Stage =
    | Waiting
    | Queued(w: seq<Snapshot>, log: seq<Snapshot>, sent: nat)
    | Cut(w: seq<Snapshot>, log: seq<Snapshot>)      // a write of the back-fill failed
    | Filled(w: seq<Snapshot>, log: seq<Snapshot>)
    | Direct                                         // nothing to back-fill

  datatype Track = Track(player: string, room: string, since: Option<int>, stage: Stage)

  /** How the first push of a room went for a subscription that has nothing to back-fill. */
  datatype FirstPush =
    | NotYet
    | NoAnswer      // the state call failed, or the room is gone
    | Unchanged     // the state is the one remembered for the room, so nothing is sent
    | Lost          // the write failed
    | Shown

  datatype Sys = Sys(
    hub: Hub, work: Option<Work>,
    world: map<string, Room>, seen: set<string>,     // the rooms, and all room ids ever used
    got: map<nat, seq<Sent>>,                        // what was written to each subscriber's connection
    tracks: map<nat, Track>,
    first: map<nat, FirstPush>)                      // for subscriptions without a back-fill

  datatype HubEvent =
    | SubscribeEv(player: string, room: string, from: Option<int>, malformed: bool)
    | UnsubscribeEv(id: nat)
    | RoomEv(room: string, ev: Event)
    | RoomBornEv(room: string, r: Room)
    | RoomGoneEv(room: string)
    | BeginEv(now: int, plan: Plan, order: seq<string>)
    | FillEv(ok: bool)                               // did the room call, or the write, succeed
    | PollEv(ok: bool)
    | ReadyEv(ok: bool)
    | PingEv(ok: bool)
    | CommitEv

  // ------------------------------------------------------------------ one step

  ghost predicate Enabled(s: Sys, ev: HubEvent) {
    match ev
    case SubscribeEv(_, _, _, _) => true
    case UnsubscribeEv(_) => true
    case RoomEv(room, _) => room in s.world && RoomOk(s.world[room])
    case RoomBornEv(room, r) => room !in s.seen && RoomOk(r)
    case RoomGoneEv(_) => true
    case BeginEv(now, plan, order) =>
      && s.work.None? && IsPlan(AllClocked(s.hub, now).subs, now, plan)
      && NoDup(order) && Elems(order) == plan.polls.Keys
    case FillEv(_) => s.work.Some? && s.work.value.fills != []
    case PollEv(_) => s.work.Some? && s.work.value.fills == [] && s.work.value.polls != []
    case ReadyEv(_) =>
      s.work.Some? && s.work.value.fills == [] && s.work.value.polls == [] && s.work.value.readies != []
    case PingEv(_) =>
      && s.work.Some? && s.work.value.fills == [] && s.work.value.polls == []
      && s.work.value.readies == [] && s.work.value.pings != []
    case CommitEv =>
      && s.work.Some? && s.work.value.fills == [] && s.work.value.polls == []
      && s.work.value.readies == [] && s.work.value.pings == []
  }

  function FillFor(subs: map<nat, Sub>, id: nat): Fill
    requires id in subs && WantsBackfill(subs[id])
  {
    if subs[id].malformed then Reset(id, subs[id].room, IdMalformed, true)
    else Ask(id, subs[id].room, subs[id].from.value)
  }

  function FillsFor(subs: map<nat, Sub>, ids: seq<nat>): (r: seq<Fill>)
    requires forall id :: id in ids ==> id in subs && WantsBackfill(subs[id])
    ensures |r| == |ids| && forall k :: 0 <= k < |r| ==> r[k] == FillFor(subs, ids[k])
  {
    seq(|ids|, k requires 0 <= k < |ids| => FillFor(subs, ids[k]))
  }

  function PollsFor(polls: map<string, seq<nat>>, order: seq<string>): (r: seq<Poll>)
    requires forall room :: room in order ==> room in polls
    ensures |r| == |order| && forall k :: 0 <= k < |r| ==> r[k] == Query(order[k], polls[order[k]])
  {
    seq(|order|, k requires 0 <= k < |order| => Query(order[k], polls[order[k]]))
  }

  function FirstTrack(player: string, room: string, from: Option<int>, malformed: bool): Track {
    Track(player, room, if malformed then None else from, if malformed || from.Some? then Stage.Waiting else Direct)
  }

  /** A back-fill that is over for this tick leaves its head of the list. */
  function NextFill(s: Sys, w: Work, report: Report): Sys
    requires w.fills != []
  {
    s.(work := Some(w.(fills := w.fills[1..], report := report)))
  }

  /** A back-fill goes on as `f`. */
  function FillOn(s: Sys, w: Work, f: Fill): Sys
    requires w.fills != []
  {
    s.(work := Some(w.(fills := [f] + w.fills[1..])))
  }

  function Kept(r: Report, id: nat): Report {
    r.(kept := r.kept + {id})
  }

  function Failed(r: Report, id: nat): Report {
    r.(failed := r.failed + {id})
  }

  function AskStep(s: Sys, w: Work, ok: bool): Sys
    requires w.fills != [] && w.fills[0].Ask? && w.fills[0].id in s.tracks
    requires ok && w.fills[0].room in s.world ==> Ring(s.world[w.fills[0].room].log) != []
  {
    var f := w.fills[0];
    if !ok || f.room !in s.world then NextFill(s, w, Kept(w.report, f.id))
    else
      var room := s.world[f.room];
      var answer := WindowOf(Ring(room.log), room.frame, f.since);
      if Fillable(answer) then
        FillOn(s.(tracks := s.tracks[f.id := s.tracks[f.id].(stage := Queued(answer.snapshots, room.log, 0))]), w,
               Frames(f.id, f.room, answer.snapshots, 0))
      else FillOn(s, w, Reset(f.id, f.room, ReasonFor(answer), false))
  }

  /** One frame is written, or the connection is lost. */
  function FrameStep(s: Sys, w: Work, ok: bool): Sys
    requires w.fills != [] && w.fills[0].Frames? && w.fills[0].id in s.tracks && w.fills[0].id in s.got
    requires w.fills[0].sent < |w.fills[0].snaps| && s.tracks[w.fills[0].id].stage.Queued?
  {
    var f := w.fills[0];
    var track := s.tracks[f.id];
    var log := track.stage.log;
    if !ok then NextFill(s.(tracks := s.tracks[f.id := track.(stage := Cut(f.snaps, log))]), w, Failed(w.report, f.id))
    else
      FillOn(s.(got := s.got[f.id := s.got[f.id] + [StateSent(f.snaps[f.sent])]],
                tracks := s.tracks[f.id := track.(stage := Queued(f.snaps, log, f.sent + 1))]),
             w, NoteFrame(f.id, f.room, f.snaps, f.sent + 1))
  }

  /** A written frame becomes the last state pushed to the room; after the last one the back-fill is complete. */
  function NoteFrameStep(s: Sys, w: Work): Sys
    requires w.fills != [] && w.fills[0].NoteFrame? && w.fills[0].id in s.tracks
    requires 0 < w.fills[0].sent <= |w.fills[0].snaps| && s.tracks[w.fills[0].id].stage.Queued?
  {
    var f := w.fills[0];
    var track, state := s.tracks[f.id], f.snaps[f.sent - 1];
    var s1 := s.(hub := s.hub.(pushed := SetPushed(s.hub.pushed, f.room, state, Terminal(state))));
    if f.sent < |f.snaps| then FillOn(s1, w, Frames(f.id, f.room, f.snaps, f.sent))
    else
      NextFill(s1.(tracks := s.tracks[f.id := track.(stage := Filled(f.snaps, track.stage.log))]), w,
               w.report.(filled := w.report.filled[f.id := |f.snaps|]))
  }

  function FetchStep(s: Sys, w: Work, ok: bool): Sys
    requires w.fills != [] && w.fills[0].Reset?
  {
    var f := w.fills[0];
    if !ok || f.room !in s.world then NextFill(s, w, Kept(w.report, f.id))
    else FillOn(s, w, WriteReset(f.id, f.room, f.reason, f.counts, SnapshotOf(s.world[f.room])))
  }

  function ResetStep(s: Sys, w: Work, ok: bool): Sys
    requires w.fills != [] && w.fills[0].WriteReset? && w.fills[0].id in s.got
  {
    var f := w.fills[0];
    FillOn(if ok then s.(got := s.got[f.id := s.got[f.id] + [ResetSent(f.reason, f.s)]]) else s,
           w, NoteReset(f.id, f.room, f.reason, f.counts, f.s, ok))
  }

  /** The state of a reset becomes the last state pushed to the room, even if the write failed. */
  function NoteResetStep(s: Sys, w: Work): Sys
    requires w.fills != [] && w.fills[0].NoteReset? && w.fills[0].id in s.tracks
  {
    var f := w.fills[0];
    var s1 := s.(hub := s.hub.(pushed := SetPushed(s.hub.pushed, f.room, f.s, false)));
    if !f.written then NextFill(s1, w, Failed(w.report, f.id))
    else
      var report := w.report.(resets := w.report.resets[f.id := f.reason]);
      if f.counts then
        NextFill(s1.(tracks := s.tracks[f.id := s.tracks[f.id].(stage := Direct)]), w,
                 report.(filled := report.filled[f.id := 0]))
      else NextFill(s1, w, Kept(report, f.id))
  }

  ghost predicate FillReady(s: Sys, w: Work) {
    && w.fills != []
    && var f := w.fills[0];
       && FillOk(f, s.tracks) && f.id in s.got
       && (f.room in s.world ==> Ring(s.world[f.room].log) != [])
  }

  ghost function FillStep(s: Sys, w: Work, ok: bool): Sys
    requires FillReady(s, w)
  {
    match w.fills[0]
    case Ask(_, _, _) => AskStep(s, w, ok)
    case Frames(_, _, _, _) => FrameStep(s, w, ok)
    case NoteFrame(_, _, _, _) => NoteFrameStep(s, w)
    case Reset(_, _, _, _) => FetchStep(s, w, ok)
    case WriteReset(_, _, _, _, _) => ResetStep(s, w, ok)
    case NoteReset(_, _, _, _, _, _) => NoteResetStep(s, w)
  }

  /** Records how the push went for those of `ids` that had none before. */
  function AfterPush(first: map<nat, FirstPush>, ids: seq<nat>, how: FirstPush): map<nat, FirstPush> {
    map id | id in first :: if id in ids && first[id].NotYet? then how else first[id]
  }

  function QueryStep(s: Sys, w: Work, ok: bool): Sys
    requires w.polls != [] && w.polls[0].Query?
  {
    var p := w.polls[0];
    if !ok || p.room !in s.world then
      s.(work := Some(w.(polls := w.polls[1..])), first := AfterPush(s.first, p.ids, NoAnswer))
    else s.(work := Some(w.(polls := [Compare(p.room, SnapshotOf(s.world[p.room]), p.ids)] + w.polls[1..])))
  }

  /** Under the lock: is the state the one last pushed? */
  function CompareStep(s: Sys, w: Work): Sys
    requires w.polls != [] && w.polls[0].Compare?
  {
    var p := w.polls[0];
    var (pushed, changed) := Compared(s.hub.pushed, p.room, p.s);
    if !changed then s.(work := Some(w.(polls := w.polls[1..])), first := AfterPush(s.first, p.ids, Unchanged))
    else
      s.(hub := s.hub.(pushed := pushed),
         work := Some(w.(polls := [Push(p.room, p.s, p.ids)] + w.polls[1..])))
  }

  /** One write; whoever cannot be written to is let go, and after the end of the game everybody. */
  function PushStep(s: Sys, w: Work, ok: bool): Sys
    requires w.polls != [] && w.polls[0].Push? && w.polls[0].ids != [] && w.polls[0].ids[0] in s.got
  {
    var p := w.polls[0];
    var id, later := p.ids[0], p.ids[1..];
    s.(got := if ok then s.got[id := s.got[id] + [StateSent(p.s)]] else s.got,
       first := AfterPush(s.first, [id], if ok then Shown else Lost),
       work := Some(w.(polls := (if later == [] then [] else [Push(p.room, p.s, later)]) + w.polls[1..],
                       report := if ok && !Terminal(p.s) then w.report else Failed(w.report, id))))
  }

  predicate PollReady(s: Sys, w: Work) {
    w.polls != [] && w.polls[0].ids != [] && w.polls[0].ids[0] in s.got
  }

  function PollStep(s: Sys, w: Work, ok: bool): Sys
    requires PollReady(s, w)
  {
    match w.polls[0]
    case Query(_, _) => QueryStep(s, w, ok)
    case Compare(_, _, _) => CompareStep(s, w)
    case Push(_, _, _) => PushStep(s, w, ok)
  }

  function Wrote(s: Sys, w: Work, id: nat, m: Sent, ok: bool): Sys
    requires id in s.got
  {
    if ok then s.(got := s.got[id := s.got[id] + [m]], work := Some(w))
    else s.(work := Some(w.(report := Failed(w.report, id))))
  }

  ghost function Step(s: Sys, ev: HubEvent): Sys
    requires SysInv(s) && Enabled(s, ev)
  {
    match ev
    case SubscribeEv(player, room, from, malformed) =>
      s.(hub := Subscribed(s.hub, player, room, from, malformed),
         got := s.got[s.hub.nextId := []],
         tracks := s.tracks[s.hub.nextId := FirstTrack(player, room, from, malformed)],
         first := if malformed || from.Some? then s.first else s.first[s.hub.nextId := NotYet])
    case UnsubscribeEv(id) => s.(hub := Unsubscribed(s.hub, id))
    case RoomEv(room, e) => s.(world := s.world[room := Apply(s.world[room], e)])
    case RoomBornEv(room, r) => s.(world := s.world[room := r], seen := s.seen + {room})
    case RoomGoneEv(room) => s.(world := s.world - {room})
    case BeginEv(now, plan, order) =>
      var subs := AllClocked(s.hub, now).subs;
      PlanPolls(subs, now, plan, order);
      s.(hub := AllClocked(s.hub, now),
         work := Some(Work(now, FillsFor(subs, plan.fills), PollsFor(plan.polls, order), plan.readies, plan.pings,
                           Report(map[], {}, map[], Elems(plan.readies), Elems(plan.pings), {}))))
    case FillEv(ok) => FillFacts(s); FillStep(s, s.work.value, ok)
    case PollEv(ok) => PollFacts(s); PollStep(s, s.work.value, ok)
    case ReadyEv(ok) =>
      var w := s.work.value;
      var id := w.readies[0];
      assert id in w.readies;
      Wrote(s, w.(readies := w.readies[1..]), id, ReadySent(s.tracks[id].player, s.tracks[id].room), ok)
    case PingEv(ok) =>
      var w := s.work.value;
      var id := w.pings[0];
      assert id in w.pings;
      Wrote(s, w.(pings := w.pings[1..]), id, PingSent, ok)
    case CommitEv =>
      s.(hub := Committed(s.hub, s.work.value.report, s.work.value.now), work := None)
  }

  lemma PlanPolls(subs: map<nat, Sub>, now: int, plan: Plan, order: seq<string>)
    requires IsPlan(subs, now, plan) && Elems(order) == plan.polls.Keys
    ensures forall id :: id in plan.fills ==> id in subs && WantsBackfill(subs[id])
    ensures forall room :: room in order ==> room in plan.polls
  {
    assert forall room :: room in order ==> room in Elems(order);
  }

  lemma FillFacts(s: Sys)
    requires SysInv(s) && s.work.Some? && s.work.value.fills != []
    ensures FillReady(s, s.work.value)
  {
    var f := s.work.value.fills[0];
    assert f in s.work.value.fills;
    if f.room in s.world {
      RingSteps(s.world[f.room].log);
    }
  }

  lemma PollFacts(s: Sys)
    requires SysInv(s) && s.work.Some? && s.work.value.polls != []
    ensures PollReady(s, s.work.value) && PollOk(s.work.value.polls[0], s.tracks)
  {
    var p := s.work.value.polls[0];
    assert p in s.work.value.polls && PollOk(p, s.tracks);
    assert p.ids[0] in p.ids;
  }

  // ------------------------------------------------------------------ the invariant

  /** The snapshots written to a connection, in order. */
  function States(got: seq<Sent>): seq<Snapshot> {
    if got == [] then []
    else
      var n := |got| - 1;
      if got[n].StateSent? then States(got[..n]) + [got[n].s] else States(got[..n])
  }

  /** `w` is what a room with this log owes a client whose last frame is `since`: frames since + 1 up to
      the newest, each once, as last recorded. */
  ghost predicate Resumes(w: seq<Snapshot>, log: seq<Snapshot>, since: Option<int>) {
    since.Some? && w != [] && log != [] && ExactlyAfter(w, log, since.value)
  }

  function Last(w: seq<Snapshot>): int
    requires w != []
  {
    w[|w| - 1].frame
  }

  predicate NoneBelow(states: seq<Snapshot>, n: nat, frame: int) {
    forall k :: n <= k < |states| ==> states[k].frame >= frame
  }

  /** No reset after a state. */
  ghost predicate ResetsFirst(got: seq<Sent>) {
    forall i, j :: 0 <= i < j < |got| && got[i].StateSent? ==> !got[j].ResetSent?
  }

  /** What a subscription has received so far, by its stage. */
  ghost predicate Received(t: Track, got: seq<Sent>) {
    && (t.since.Some? ==> ResetsFirst(got))
    && match t.stage
       case Waiting => States(got) == []
       case Queued(w, log, sent) => sent <= |w| && States(got) == w[..sent] && Resumes(w, log, t.since)
       case Cut(w, log) => States(got) <= w && Resumes(w, log, t.since)
       case Filled(w, log) => Resumes(w, log, t.since) && w <= States(got) && NoneBelow(States(got), |w|, Last(w))
       case Direct => t.since.None?
  }

  ghost predicate AllReceived(tracks: map<nat, Track>, got: map<nat, seq<Sent>>) {
    tracks.Keys == got.Keys && forall id :: id in tracks ==> Received(tracks[id], got[id])
  }

  /** Rooms never fall behind what they have answered. */
  ghost predicate Behind(t: Track, world: map<string, Room>, seen: set<string>) {
    (t.stage.Queued? || t.stage.Filled?) && t.stage.w != [] ==>
      t.room in seen && (t.room in world ==> world[t.room].frame >= Last(t.stage.w))
  }

  ghost predicate AllBehind(tracks: map<nat, Track>, world: map<string, Room>, seen: set<string>) {
    && world.Keys <= seen
    && (forall room :: room in world ==> RoomOk(world[room]))
    && (forall id :: id in tracks ==> Behind(tracks[id], world, seen))
  }

  predicate FramesUnderWay(fills: seq<Fill>, id: nat, room: string, w: seq<Snapshot>, sent: nat) {
    Frames(id, room, w, sent) in fills || NoteFrame(id, room, w, sent) in fills
  }

  /** A subscription wants a back-fill as long as its stage says so, up to the next commit. */
  ghost predicate Linked(sub: Sub, t: Track, id: nat, work: Option<Work>) {
    && sub.room == t.room
    && match t.stage
       case Waiting => WantsBackfill(sub) && (if sub.malformed then t.since.None? else sub.from == t.since)
       case Queued(w, _, sent) =>
         WantsBackfill(sub) && work.Some? && FramesUnderWay(work.value.fills, id, t.room, w, sent)
       case Cut(_, _) => WantsBackfill(sub) && work.Some? && id in work.value.report.failed
       case Filled(_, _) => WantsBackfill(sub) ==> work.Some? && id in work.value.report.filled
       case Direct => WantsBackfill(sub) ==> work.Some? && id in work.value.report.filled
  }

  ghost predicate AllLinked(subs: map<nat, Sub>, tracks: map<nat, Track>, work: Option<Work>) {
    forall id :: id in subs ==> id in tracks && Linked(subs[id], tracks[id], id, work)
  }

  ghost predicate FillOk(f: Fill, tracks: map<nat, Track>) {
    && f.id in tracks && tracks[f.id].room == f.room
    && var t := tracks[f.id];
       match f
       case Ask(_, _, since) => t.stage.Waiting? && t.since == Some(since)
       case Frames(_, _, snaps, sent) => t.stage.Queued? && t.stage.w == snaps && t.stage.sent == sent < |snaps|
       case NoteFrame(_, _, snaps, sent) => t.stage.Queued? && t.stage.w == snaps && 0 < t.stage.sent == sent <= |snaps|
       case _ => t.stage.Waiting? && (f.counts ==> t.since.None?)
  }

  ghost predicate FillsInOrder(fills: seq<Fill>, tracks: map<nat, Track>) {
    && (forall f :: f in fills ==> FillOk(f, tracks))
    && (forall i, j :: 0 <= i < j < |fills| ==> fills[i].id != fills[j].id)
  }

  predicate LiveStage(t: Track) {
    t.stage.Filled? || t.stage.Direct?
  }

  ghost predicate MayPush(t: Track, frame: int) {
    t.stage.Filled? && t.stage.w != [] ==> frame >= Last(t.stage.w)
  }

  ghost predicate PollOk(p: Poll, tracks: map<nat, Track>) {
    && p.ids != []
    && (forall id :: id in p.ids ==> id in tracks && tracks[id].room == p.room && LiveStage(tracks[id]))
    && (!p.Query? ==> forall id :: id in p.ids ==> MayPush(tracks[id], p.s.frame))
  }

  ghost predicate WorkOk(w: Work, tracks: map<nat, Track>) {
    && FillsInOrder(w.fills, tracks)
    && (forall p :: p in w.polls ==> PollOk(p, tracks))
    && (forall id :: id in w.readies ==> id in tracks)
    && (forall id :: id in w.pings ==> id in tracks)
    && (forall id :: id in w.report.filled ==> id in tracks && LiveStage(tracks[id]))
  }

  ghost predicate Numbered(tracks: map<nat, Track>, nextId: nat) {
    forall id :: id in tracks ==> id < nextId
  }

  ghost predicate SysInv(s: Sys) {
    && AllReceived(s.tracks, s.got)
    && AllBehind(s.tracks, s.world, s.seen)
    && AllLinked(s.hub.subs, s.tracks, s.work)
    && Numbered(s.tracks, s.hub.nextId)
    && (s.work.Some? ==> WorkOk(s.work.value, s.tracks))
  }

  // ------------------------------------------------------------------ what a tick puts on record

  /** A write of the back-fill failed. */
  predicate FillLoses(f: Fill, ok: bool) {
    (f.Frames? && !ok) || (f.NoteReset? && !f.written)
  }

  /** The write failed, or the game is over. */
  predicate PollLoses(p: Poll, ok: bool) {
    p.Push? && (!ok || p.s.phase.Finished? || p.s.phase.Aborted?)
  }

  /** What a step of a back-fill puts on record: a lost connection; a completed back-fill with its number of
      frames, none after a malformed id; a reset and why it was sent; and a back-fill to be repeated, because
      the room did not answer or because it was sent a reset that does not count. */
  ghost predicate OnRecord(f: Fill, answered: bool, ok: bool, before: Report, after: Report) {
    var reset := f.NoteReset? && f.written;
    && after.failed == before.failed + (if FillLoses(f, ok) then {f.id} else {})
    && after.kept == before.kept
       + (if ((f.Ask? || f.Reset?) && !answered) || (reset && !f.counts) then {f.id} else {})
    && after.resets == (if reset then before.resets[f.id := f.reason] else before.resets)
    && after.filled == (if reset && f.counts then before.filled[f.id := 0]
                        else if f.NoteFrame? && f.sent == |f.snaps| then before.filled[f.id := |f.snaps|]
                        else before.filled)
  }

  lemma AskRecords(s: Sys, w: Work, ok: bool)
    requires FillReady(s, w) && w.fills[0].Ask?
    ensures var q := AskStep(s, w, ok).work;
      q.Some? && OnRecord(w.fills[0], ok && w.fills[0].room in s.world, ok, w.report, q.value.report)
  {
  }

  lemma NoteFrameRecords(s: Sys, w: Work, ok: bool)
    requires FillReady(s, w) && w.fills[0].NoteFrame?
    ensures var q := NoteFrameStep(s, w).work;
      q.Some? && OnRecord(w.fills[0], true, ok, w.report, q.value.report)
  {
  }

  lemma NoteResetRecords(s: Sys, w: Work, ok: bool)
    requires FillReady(s, w) && w.fills[0].NoteReset?
    ensures var q := NoteResetStep(s, w).work;
      q.Some? && OnRecord(w.fills[0], true, ok, w.report, q.value.report)
  {
  }

  lemma FillRecords(s: Sys, w: Work, ok: bool)
    requires FillReady(s, w)
    ensures var q := FillStep(s, w, ok).work;
      q.Some? && OnRecord(w.fills[0], ok && w.fills[0].room in s.world, ok, w.report, q.value.report)
  {
    match w.fills[0]
    case Ask(_, _, _) => AskRecords(s, w, ok);
    case Frames(_, _, _, _) =>
    case NoteFrame(_, _, _, _) => NoteFrameRecords(s, w, ok);
    case Reset(_, _, _, _) =>
    case WriteReset(_, _, _, _, _) =>
    case NoteReset(_, _, _, _, _, _) => NoteResetRecords(s, w, ok);
  }

  lemma PollLets(s: Sys, w: Work, ok: bool, id: nat)
    requires PollReady(s, w)
    ensures var q := PollStep(s, w, ok);
      && (q.work.Some? ==>
            (id in q.work.value.report.failed
             <==> id in w.report.failed || (id == w.polls[0].ids[0] && PollLoses(w.polls[0], ok))))
      && q.work.Some?
  {
  }

  /** A step that loses `id`'s connection, or gives it the end of its game. */
  predicate LosesNow(w: Work, ev: HubEvent, id: nat) {
    match ev
    case FillEv(ok) => w.fills != [] && w.fills[0].id == id && FillLoses(w.fills[0], ok)
    case PollEv(ok) =>
      w.polls != [] && w.polls[0].ids != [] && w.polls[0].ids[0] == id && PollLoses(w.polls[0], ok)
    case ReadyEv(ok) => w.readies != [] && w.readies[0] == id && !ok
    case PingEv(ok) => w.pings != [] && w.pings[0] == id && !ok
    case _ => false
  }

  /** In the middle of a tick, exactly these steps put a subscription on the list of those to be let go. */
  lemma LetGoIff(s: Sys, ev: HubEvent, id: nat)
    requires SysInv(s) && Enabled(s, ev) && s.work.Some? && !ev.CommitEv?
    ensures Step(s, ev).work.Some?
    ensures id in Step(s, ev).work.value.report.failed
      <==> id in s.work.value.report.failed || LosesNow(s.work.value, ev, id)
  {
    var w := s.work.value;
    match ev
    case FillEv(ok) =>
      FillFacts(s);
      FillRecords(s, w, ok);
    case PollEv(ok) =>
      PollFacts(s);
      PollLets(s, w, ok, id);
    case ReadyEv(ok) => assert w.readies[0] in w.readies;
    case PingEv(ok) => assert w.pings[0] in w.pings;
    case _ =>
  }
}
