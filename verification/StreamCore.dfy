/** The hub's tables as values: subscriptions, the last state pushed for each room, and what one tick
    collects, sends and commits. */
module StreamCore {
  import opened Wrappers
  import opened Seqs
  import opened RoomCore
  import opened RoomHistory
  import opened StreamText
  import Decimals

  const HEARTBEAT_MS := 15000

  datatype Sub = Sub(
    player: string, room: string, from: Option<int>, malformed: bool,
    pending: bool, ready: bool, created: int, beat: int,
    done: bool, frames: nat, reset: Option<ResetReason>)

  datatype Hub = Hub(subs: map<nat, Sub>, pushed: map<string, string>, nextId: nat)

  datatype Answer<T> = Unavailable | Answered(value: T)

  // ------------------------------------------------------------------ state signatures

  function PhaseCode(p: Phase): nat {
    match p
    case Created => 0
    case Waiting => 1
    case Playing => 2
    case Finishing => 3
    case Finished => 4
    case Aborted => 5
  }

  function PlayersPart(players: seq<Player>): string {
    if players == [] then ""
    else
      "|" + players[0].id + ":" + Decimals.IntText(players[0].hp) + (if players[0].online then "1" else "0")
      + PlayersPart(players[1..])
  }

  function StateSignature(s: Snapshot): string {
    Decimals.IntText(s.frame) + "|" + Decimals.IntText(PhaseCode(s.phase)) + PlayersPart(s.players)
  }

  // ------------------------------------------------------------------ subscribing

  function Subscribed(h: Hub, player: string, room: string, from: Option<int>, malformed: bool): Hub {
    Hub(h.subs[h.nextId := Sub(player, room, from, malformed, true, false, 0, 0, false, 0, None)],
        h.pushed - {room}, h.nextId + 1)
  }

  function Unsubscribed(h: Hub, id: nat): Hub {
    h.(subs := h.subs - {id})
  }

  predicate WantsBackfill(sub: Sub) {
    sub.pending && (sub.from.Some? || sub.malformed)
  }

  // ------------------------------------------------------------------ collecting

  /** A subscription's first tick sets its clocks. */
  function Clocked(sub: Sub, now: int): Sub {
    if sub.created == 0 then sub.(created := now, beat := now) else sub
  }

  function AllClocked(h: Hub, now: int): Hub {
    h.(subs := map id | id in h.subs :: Clocked(h.subs[id], now))
  }

  predicate PingDue(sub: Sub, now: int) {
    (WantsBackfill(sub) || sub.ready) && now - sub.beat >= HEARTBEAT_MS
  }

  /** Whom a tick serves: subscriptions to back-fill, live ones by room, those still without their first
      event, and those due a heartbeat. */
  datatype Plan = Plan(fills: seq<nat>, polls: map<string, seq<nat>>, readies: seq<nat>, pings: seq<nat>)

  ghost predicate FillsOk(subs: map<nat, Sub>, fills: seq<nat>) {
    NoDup(fills) && forall id :: id in fills <==> id in subs && WantsBackfill(subs[id])
  }

  predicate IsLive(subs: map<nat, Sub>, id: nat) {
    id in subs && !WantsBackfill(subs[id])
  }

  ghost predicate PollsOk(subs: map<nat, Sub>, polls: map<string, seq<nat>>) {
    && (forall id :: IsLive(subs, id) ==> subs[id].room in polls && id in polls[subs[id].room])
    && (forall room :: room in polls ==> NoDup(polls[room]) && polls[room] != [])
    && (forall room, id :: room in polls && id in polls[room] ==> IsLive(subs, id) && subs[id].room == room)
  }

  ghost predicate ReadiesOk(subs: map<nat, Sub>, readies: seq<nat>) {
    forall id :: id in readies <==> IsLive(subs, id) && !subs[id].ready
  }

  ghost predicate PingsOk(subs: map<nat, Sub>, now: int, pings: seq<nat>) {
    forall id :: id in pings <==> id in subs && PingDue(subs[id], now)
  }

  ghost predicate IsPlan(subs: map<nat, Sub>, now: int, plan: Plan) {
    && FillsOk(subs, plan.fills)
    && PollsOk(subs, plan.polls)
    && ReadiesOk(subs, plan.readies)
    && PingsOk(subs, now, plan.pings)
  }

  // ------------------------------------------------------------------ back-filling

  function SetPushed(pushed: map<string, string>, room: string, s: Snapshot, terminal: bool): map<string, string> {
    if terminal then pushed - {room} else pushed[room := StateSignature(s)]
  }

  /** After sending `snaps` one by one. */
  function PushedAfter(pushed: map<string, string>, room: string, snaps: seq<Snapshot>): map<string, string> {
    if snaps == [] then pushed
    else SetPushed(PushedAfter(pushed, room, snaps[..|snaps| - 1]), room, snaps[|snaps| - 1],
                   Terminal(snaps[|snaps| - 1]))
  }

  predicate Fillable(w: Window) {
    w.outcome.Complete? && w.snapshots != []
  }

  function ReasonFor(w: Window): ResetReason {
    if w.outcome.Ahead? then IdAhead else if w.outcome.Incomplete? then IdOutOfWindow else IdCurrent
  }

  function StatesSent(snaps: seq<Snapshot>): (r: seq<Sent>)
    ensures |r| == |snaps| && forall k :: 0 <= k < |r| ==> r[k] == StateSent(snaps[k])
  {
    seq(|snaps|, k requires 0 <= k < |snaps| => StateSent(snaps[k]))
  }

  /** The frames a back-fill has to send. */
  function MissingFrames(malformed: bool, since: Option<int>, range: Answer<Window>): seq<Snapshot> {
    if !malformed && since.Some? && range.Answered? && Fillable(range.value) then range.value.snapshots else []
  }

  /** What a back-fill writes if no write fails. */
  function FillSends(malformed: bool, since: Option<int>, range: Answer<Window>, state: Answer<Snapshot>): seq<Sent> {
    if malformed then
      if state.Answered? then [ResetSent(IdMalformed, state.value)] else []
    else if since.None? || range.Unavailable? then []
    else if Fillable(range.value) then StatesSent(range.value.snapshots)
    else if state.Answered? then [ResetSent(ReasonFor(range.value), state.value)]
    else []
  }

  /** An attempt whose writes all succeed ends the back-fill exactly when the id was malformed and the
      state could be fetched, or there were frames to send and the window covered them: a client that
      missed nothing, is ahead, or has been away too long gets a reset and stays pending. */
  predicate Ends(malformed: bool, since: Option<int>, range: Answer<Window>, state: Answer<Snapshot>) {
    if malformed then state.Answered? else since.Some? && range.Answered? && Fillable(range.value)
  }

  datatype Outcome = Outcome(attempted: bool, frames: nat, writeFailed: bool, reset: Option<ResetReason>)

  /** What is remembered of a room after frames were sent to one client is the last of them, and nothing if
      the game ended with it; of no other room is anything changed. */
  lemma {:induction false} RemembersTheLast(pushed: map<string, string>, room: string, snaps: seq<Snapshot>)
    ensures var after := PushedAfter(pushed, room, snaps);
      && (snaps != [] ==>
            var last := snaps[|snaps| - 1];
            if last.phase.Finished? || last.phase.Aborted? then room !in after
            else room in after && after[room] == StateSignature(last))
      && (snaps == [] ==> after == pushed)
      && forall k :: k != room ==> (k in after <==> k in pushed) && (k in after ==> after[k] == pushed[k])
  {
    if snaps != [] {
      RemembersTheLast(pushed, room, snaps[..|snaps| - 1]);
    }
  }

  // ------------------------------------------------------------------ live pushes

  /** Whether the state differs from the last one pushed, and the table afterwards; the end of a game is
      always pushed. */
  function Compared(pushed: map<string, string>, room: string, s: Snapshot): (map<string, string>, bool) {
    var previous := if room in pushed then pushed[room] else "";
    if StateSignature(s) != previous || Terminal(s) then (SetPushed(pushed, room, s, Terminal(s)), true)
    else (pushed, false)
  }

  // ------------------------------------------------------------------ committing

  /** What a tick has to record: back-fills completed with their number of frames, those to be repeated,
      resets sent, first events and heartbeats attempted, and failed writes. */
  datatype Report = Report(
    filled: map<nat, nat>, kept: set<nat>, resets: map<nat, ResetReason>,
    readies: set<nat>, pings: set<nat>, failed: set<nat>)

  /** What the commit writes into the subscriptions of one list. */
  datatype Mark = FilledMark(frames: map<nat, nat>) | ResetMark(reasons: map<nat, ResetReason>) | BeatMark | ReadyMark

  function Marked(mark: Mark, id: nat, s: Sub, now: int): Sub {
    match mark
    case FilledMark(frames) =>
      if id in frames then s.(pending := false, from := None, done := true, frames := frames[id], beat := now) else s
    case ResetMark(reasons) => if id in reasons then s.(reset := Some(reasons[id])) else s
    case BeatMark => s.(beat := now)
    case ReadyMark => s.(ready := true, beat := now)
  }

  function MarkedIf(chosen: bool, mark: Mark, id: nat, s: Sub, now: int): Sub {
    if chosen then Marked(mark, id, s, now) else s
  }

  function AfterTick(sub: Sub, id: nat, r: Report, now: int): Sub {
    var s1 := MarkedIf(id in r.filled, FilledMark(r.filled), id, sub, now);
    var s2 := MarkedIf(id in r.resets, ResetMark(r.resets), id, s1, now);
    var s3 := MarkedIf(id in r.kept, BeatMark, id, s2, now);
    var s4 := MarkedIf(id in r.readies, ReadyMark, id, s3, now);
    MarkedIf(id in r.pings, BeatMark, id, s4, now)
  }

  function AllAfterTick(subs: map<nat, Sub>, r: Report, now: int): map<nat, Sub> {
    map id | id in subs && id !in r.failed :: AfterTick(subs[id], id, r, now)
  }

  function Committed(h: Hub, r: Report, now: int): Hub {
    h.(subs := AllAfterTick(h.subs, r, now))
  }

  // ------------------------------------------------------------------ what a signature tells apart

  /** Two snapshots of one room with the same signature agree in everything a client can see move. */
  ghost predicate SameLook(a: Snapshot, b: Snapshot)
    requires |a.players| == |b.players|
  {
    && a.frame == b.frame && a.phase == b.phase
    && forall i :: 0 <= i < |a.players| ==>
         a.players[i].hp == b.players[i].hp && a.players[i].online == b.players[i].online
  }

  predicate NoDigitFirst(s: string) {
    s == "" || !Decimals.IsDigit(s[0])
  }

  lemma DigitsEnd(n: nat, tail: string)
    requires NoDigitFirst(tail)
    ensures Decimals.ScanNat(Decimals.Digits(n) + tail, 0, false) == Some((n, tail))
  {
    Decimals.ScanDigits(n, tail);
  }

  lemma DigitsThenBit(n: nat, bit: string, tail: string)
    requires NoDigitFirst(tail) && (bit == "0" || bit == "1")
    ensures Decimals.ScanNat(Decimals.Digits(n) + (bit + tail), 0, false)
      == Some((10 * n + if bit == "1" then 1 else 0, tail))
  {
    Decimals.ScanDigits(n, bit + tail);
    assert (bit + tail)[1..] == tail;
    assert Decimals.DigitValue('0') == 0 && Decimals.DigitValue('1') == 1;
  }

  function Bit(b: bool): string {
    if b then "1" else "0"
  }

  lemma PlayersPartStart(players: seq<Player>)
    ensures NoDigitFirst(PlayersPart(players))
  {
  }

  lemma CancelPrefix(head: string, a: string, b: string)
    requires head + a == head + b
    ensures a == b
  {
    assert (head + a)[|head|..] == a && (head + b)[|head|..] == b;
  }

  function FirstPlayer(p: Player, later: string): string
    requires p.hp >= 0
  {
    Decimals.Digits(p.hp) + (Bit(p.online) + later)
  }

  lemma PlayersPartSplits(players: seq<Player>)
    requires players != [] && players[0].hp >= 0
    ensures PlayersPart(players) == ("|" + players[0].id + ":") + FirstPlayer(players[0], PlayersPart(players[1..]))
  {
  }

  lemma FirstPlayerInjective(p: Player, q: Player, a: string, b: string)
    requires p.hp >= 0 && q.hp >= 0 && NoDigitFirst(a) && NoDigitFirst(b)
    requires FirstPlayer(p, a) == FirstPlayer(q, b)
    ensures p.hp == q.hp && p.online == q.online && a == b
  {
    DigitsThenBit(p.hp, Bit(p.online), a);
    DigitsThenBit(q.hp, Bit(q.online), b);
  }

  lemma {:induction false} PlayersPartInjective(a: seq<Player>, b: seq<Player>)
    requires |a| == |b| && PlayersPart(a) == PlayersPart(b)
    requires forall i :: 0 <= i < |a| ==> a[i].id == b[i].id && a[i].hp >= 0 && b[i].hp >= 0
    ensures forall i :: 0 <= i < |a| ==> a[i].hp == b[i].hp && a[i].online == b[i].online
  {
    if a != [] {
      PlayersPartSplits(a);
      PlayersPartSplits(b);
      CancelPrefix("|" + a[0].id + ":", FirstPlayer(a[0], PlayersPart(a[1..])), FirstPlayer(b[0], PlayersPart(b[1..])));
      PlayersPartStart(a[1..]);
      PlayersPartStart(b[1..]);
      FirstPlayerInjective(a[0], b[0], PlayersPart(a[1..]), PlayersPart(b[1..]));
      PlayersPartInjective(a[1..], b[1..]);
    }
  }

  lemma PhaseCodes(p: Phase, q: Phase)
    requires PhaseCode(p) == PhaseCode(q)
    ensures p == q
  {
  }

  /** The signature of a room's snapshots changes exactly when frame, phase, hp or connection changes. */
  lemma SignatureTellsApart(a: Snapshot, b: Snapshot)
    requires |a.players| == |b.players| && a.frame >= 0 && b.frame >= 0
    requires forall i :: 0 <= i < |a.players| ==>
      a.players[i].id == b.players[i].id && a.players[i].hp >= 0 && b.players[i].hp >= 0
    ensures StateSignature(a) == StateSignature(b) <==> SameLook(a, b)
  {
    var restA := "|" + (Decimals.Digits(PhaseCode(a.phase)) + PlayersPart(a.players));
    var restB := "|" + (Decimals.Digits(PhaseCode(b.phase)) + PlayersPart(b.players));
    assert StateSignature(a) == Decimals.Digits(a.frame) + restA;
    assert StateSignature(b) == Decimals.Digits(b.frame) + restB;
    if StateSignature(a) == StateSignature(b) {
      DigitsEnd(a.frame, restA);
      DigitsEnd(b.frame, restB);
      assert restA[1..] == restB[1..];
      PlayersPartStart(a.players);
      PlayersPartStart(b.players);
      DigitsEnd(PhaseCode(a.phase), PlayersPart(a.players));
      DigitsEnd(PhaseCode(b.phase), PlayersPart(b.players));
      PhaseCodes(a.phase, b.phase);
      PlayersPartInjective(a.players, b.players);
    }
    if SameLook(a, b) {
      SameLookSameParts(a.players, b.players);
    }
  }

  lemma {:induction false} SameLookSameParts(a: seq<Player>, b: seq<Player>)
    requires |a| == |b|
    requires forall i :: 0 <= i < |a| ==> a[i].id == b[i].id && a[i].hp == b[i].hp && a[i].online == b[i].online
    ensures PlayersPart(a) == PlayersPart(b)
  {
    if a != [] {
      SameLookSameParts(a[1..], b[1..]);
    }
  }

  lemma SignatureNotEmpty(s: Snapshot)
    ensures StateSignature(s) != ""
  {
    assert |StateSignature(s)| >= |"|"|;
  }

  /** After a state was pushed and remembered, the next one is pushed exactly if a client could see a
      difference, or the game is over. */
  lemma PushedAgainIff(pushed: map<string, string>, room: string, a: Snapshot, b: Snapshot)
    requires |a.players| == |b.players| && a.frame >= 0 && b.frame >= 0
    requires forall i :: 0 <= i < |a.players| ==>
      a.players[i].id == b.players[i].id && a.players[i].hp >= 0 && b.players[i].hp >= 0
    ensures Compared(SetPushed(pushed, room, a, Terminal(a)), room, b).1
      <==> !SameLook(a, b) || Terminal(a) || Terminal(b)
  {
    SignatureTellsApart(a, b);
    SignatureNotEmpty(b);
  }

  // ------------------------------------------------------------------ what a tick owes each subscription

  /** A subscription starts pending, unready and without clocks, under a fresh id, and makes the hub forget
      the last state pushed to its room, and no other room's. */
  lemma SubscribedAs(h: Hub, player: string, room: string, from: Option<int>, malformed: bool)
    ensures var q := Subscribed(h, player, room, from, malformed);
      && q.nextId == h.nextId + 1 && h.nextId in q.subs
      && (var sub := q.subs[h.nextId];
          && sub.player == player && sub.room == room && sub.from == from && sub.malformed == malformed
          && sub.pending && !sub.ready && !sub.done && sub.created == 0 && sub.reset.None?)
      && (forall id :: id != h.nextId ==>
            (id in q.subs <==> id in h.subs) && (id in h.subs ==> q.subs[id] == h.subs[id]))
      && room !in q.pushed
      && forall k :: k != room ==> (k in q.pushed <==> k in h.pushed) && (k in h.pushed ==> q.pushed[k] == h.pushed[k])
  {
  }

  /** The first tick that sees a subscription starts its clocks; later ones leave them. */
  lemma ClocksStartOnce(h: Hub, now: int, id: nat)
    requires id in h.subs && now != 0
    ensures var q := AllClocked(h, now);
      && id in q.subs && q.subs.Keys == h.subs.Keys && q.pushed == h.pushed
      && var sub, more := h.subs[id], q.subs[id];
         && more == sub.(created := more.created, beat := more.beat)
         && more.created == (if sub.created == 0 then now else sub.created)
         && more.beat == (if sub.created == 0 then now else sub.beat)
  {
  }

  /** Whom a tick serves: the back-fills asked for; of the others, everybody's room, with a first event for
      those without; and a heartbeat, 15 s after the last sign of life, for all but those about to get their
      first event. */
  lemma ServedExactly(subs: map<nat, Sub>, now: int, plan: Plan, id: nat)
    requires IsPlan(subs, now, plan) && id in subs
    ensures var sub := subs[id];
      var waits := sub.pending && (sub.from.Some? || sub.malformed);
      && (id in plan.fills <==> waits)
      && (id in plan.readies <==> !waits && !sub.ready)
      && (id in plan.pings <==> now - sub.beat >= 15000 && (waits || sub.ready))
      && (sub.room in plan.polls && id in plan.polls[sub.room] <==> !waits)
      && (forall room :: room in plan.polls && id in plan.polls[room] ==> room == sub.room)
  {
    assert IsLive(subs, id) <==> !WantsBackfill(subs[id]);
  }

  /** What a tick leaves behind: whoever could not be written to is gone; a completed back-fill is over, and
      says how many frames it had; a reset is remembered with its reason; a first event makes ready; and any
      sign of life but a reset alone counts for the heartbeat. */
  lemma CommittedExactly(h: Hub, r: Report, now: int, id: nat)
    requires id in h.subs
    ensures var q := Committed(h, r, now);
      && q.pushed == h.pushed && q.nextId == h.nextId && q.subs.Keys == h.subs.Keys - r.failed
      && (id !in r.failed ==>
            && var sub, after := h.subs[id], q.subs[id];
               && after.player == sub.player && after.room == sub.room && after.created == sub.created
               && after.malformed == sub.malformed
               && after.pending == (sub.pending && id !in r.filled)
               && after.from == (if id in r.filled then None else sub.from)
               && after.done == (sub.done || id in r.filled)
               && after.frames == (if id in r.filled then r.filled[id] else sub.frames)
               && after.reset == (if id in r.resets then Some(r.resets[id]) else sub.reset)
               && after.ready == (sub.ready || id in r.readies)
               && after.beat == (if id in r.filled || id in r.kept || id in r.readies || id in r.pings then now
                                 else sub.beat))
  {
  }

  /** A state is pushed if it is not the one remembered for the room, or ends the game; then it is
      remembered, unless it ends the game. */
  lemma PushedExactly(pushed: map<string, string>, room: string, s: Snapshot)
    ensures var (after, changed) := Compared(pushed, room, s);
      var ends := s.phase.Finished? || s.phase.Aborted?;
      && (changed <==> ends || room !in pushed || pushed[room] != StateSignature(s))
      && (!changed ==> after == pushed)
      && (changed && !ends ==> room in after && after[room] == StateSignature(s))
      && (changed && ends ==> room !in after)
      && forall k :: k != room ==> (k in after <==> k in pushed) && (k in pushed ==> after[k] == pushed[k])
  {
    SignatureNotEmpty(s);
  }
}
