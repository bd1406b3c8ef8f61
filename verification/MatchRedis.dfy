/** The saving of a snapshot command by command: what each reply does to the stored list and to the answer. */
module MatchRedis {
  import opened Wrappers
  import opened Redis
  import opened Seqs
  import opened MatchCore
  import opened MatchSnapshot
  import opened MatchProtocol
  import opened MatchRestart
  import opened MatchStore
  import Codec = SnapshotCodec

  // ------------------------------------------------------------------ the server

  datatype Command = Multi | Del | RPush(line: string) | Exec

  /** The list under the queue's key, and the transaction this connection has open. */
  datatype Server = Server(list: seq<string>, queued: Option<seq<Command>>, broken: bool)

  predicate Carried(reply: Reply) {
    reply.Fine? || reply == Lost(true)
  }

  function Effect(list: seq<string>, cmd: Command): seq<string> {
    match cmd
    case Del => []
    case RPush(line) => list + [line]
    case _ => list
  }

  function Effects(list: seq<string>, cmds: seq<Command>): seq<string>
    decreases |cmds|
  {
    if cmds == [] then list else Effects(Effect(list, cmds[0]), cmds[1..])
  }

  /** Inside a transaction commands are queued, and one that is not accepted makes EXEC discard them all;
      outside, a command takes effect at once. EXEC ends the transaction either way. */
  function Do(s: Server, cmd: Command, reply: Reply): Server {
    match cmd
    case Multi => if Carried(reply) then Server(s.list, Some([]), false) else s
    case Exec =>
      if s.queued.Some? && !s.broken && Carried(reply) then Server(Effects(s.list, s.queued.value), None, false)
      else Server(s.list, None, false)
    case _ =>
      if s.queued.Some? then
        if Carried(reply) then s.(queued := Some(s.queued.value + [cmd])) else s.(broken := true)
      else if Carried(reply) then s.(list := Effect(s.list, cmd))
      else s
  }

  function DoAll(s: Server, cmds: seq<Command>, replies: seq<Reply>): Server
    requires |cmds| == |replies|
    decreases |cmds|
  {
    if cmds == [] then s else DoAll(Do(s, cmds[0], replies[0]), cmds[1..], replies[1..])
  }

  // ------------------------------------------------------------------ saving

  function Pushes(lines: seq<string>): (r: seq<Command>)
    ensures |r| == |lines| && forall k :: 0 <= k < |r| ==> r[k] == RPush(lines[k])
  {
    seq(|lines|, k requires 0 <= k < |lines| => RPush(lines[k]))
  }

  /** The pipeline of one save. */
  function Pipeline(lines: seq<string>): seq<Command> {
    [Multi, Del] + Pushes(lines) + [Exec]
  }

  /** What a save answers: every reply arrived. What the replies say is not looked at. */
  predicate Reported(replies: seq<Reply>) {
    forall i :: 0 <= i < |replies| ==> !replies[i].Lost?
  }

  predicate AllCarried(replies: seq<Reply>) {
    forall i :: 0 <= i < |replies| ==> Carried(replies[i])
  }

  predicate SomeRefused(replies: seq<Reply>) {
    exists i :: 0 <= i < |replies| && replies[i].Refused?
  }

  /** The list afterwards, and the answer. A connection that cannot be made loses every command. */
  function SaveLines(list: seq<string>, lines: seq<string>, replies: seq<Reply>): (seq<string>, bool)
    requires |replies| == |Pipeline(lines)|
  {
    (DoAll(Server(list, None, false), Pipeline(lines), replies).list, Reported(replies))
  }

  lemma {:induction false} DoAllSplit(s: Server, a: seq<Command>, b: seq<Command>, x: seq<Reply>, y: seq<Reply>)
    requires |a| == |x| && |b| == |y|
    ensures DoAll(s, a + b, x + y) == DoAll(DoAll(s, a, x), b, y)
    decreases |a|
  {
    if a == [] {
      assert a + b == b && x + y == y;
    } else {
      assert (a + b)[1..] == a[1..] + b && (x + y)[1..] == x[1..] + y;
      DoAllSplit(Do(s, a[0], x[0]), a[1..], b, x[1..], y);
    }
  }

  /** Commands sent inside a transaction wait for EXEC, or break it. */
  lemma {:induction false} Queueing(s: Server, cmds: seq<Command>, replies: seq<Reply>)
    requires |cmds| == |replies| && s.queued.Some? && forall k :: 0 <= k < |cmds| ==> cmds[k].Del? || cmds[k].RPush?
    ensures var q := DoAll(s, cmds, replies);
      && q.list == s.list && q.queued.Some?
      && (q.broken <==> s.broken || !AllCarried(replies))
      && (AllCarried(replies) ==> q.queued.value == s.queued.value + cmds)
    decreases |cmds|
  {
    if cmds == [] {
      assert s.queued.value + cmds == s.queued.value;
    } else {
      var next := Do(s, cmds[0], replies[0]);
      Queueing(next, cmds[1..], replies[1..]);
      CarriedHead(replies);
      if AllCarried(replies) {
        assert s.queued.value + [cmds[0]] + cmds[1..] == s.queued.value + cmds;
      }
    }
  }

  lemma CarriedHead(replies: seq<Reply>)
    requires replies != []
    ensures AllCarried(replies) <==> Carried(replies[0]) && AllCarried(replies[1..])
  {
    if Carried(replies[0]) && AllCarried(replies[1..]) {
      forall i | 0 <= i < |replies| ensures Carried(replies[i]) {
        assert i > 0 ==> replies[i] == replies[1..][i - 1];
      }
    }
  }

  lemma {:induction false} PushesGiveLines(list: seq<string>, lines: seq<string>)
    ensures Effects(list, Pushes(lines)) == list + lines
    decreases |lines|
  {
    if lines == [] {
      assert list + lines == list;
    } else {
      PushesGiveLines(list + [lines[0]], lines[1..]);
      assert Pushes(lines)[1..] == Pushes(lines[1..]);
      assert list + [lines[0]] + lines[1..] == list + lines;
    }
  }

  /** Once MULTI is accepted the list is replaced as a whole or left alone, and it is replaced exactly if
      every command was carried out. */
  lemma SavedWholeIff(list: seq<string>, lines: seq<string>, replies: seq<Reply>)
    requires |replies| == |Pipeline(lines)| && Carried(replies[0])
    ensures SaveLines(list, lines, replies).0 == if AllCarried(replies) then lines else list
  {
    var n := |replies| - 1;
    var body, x := [Del] + Pushes(lines), replies[1..n];
    var s := Server(list, Some([]), false);
    assert Pipeline(lines) == [Multi] + (body + [Exec]);
    assert replies == [replies[0]] + (x + [replies[n]]);
    DoAllSplit(Server(list, None, false), [Multi], body + [Exec], [replies[0]], x + [replies[n]]);
    assert DoAll(Server(list, None, false), [Multi], [replies[0]]) == s by {
      OneCommand(Server(list, None, false), Multi, replies[0]);
    }
    DoAllSplit(s, body, [Exec], x, [replies[n]]);
    Queueing(s, body, x);
    OneCommand(DoAll(s, body, x), Exec, replies[n]);
    AllCarriedParts(replies, x);
    assert [] + body == body && body[1..] == Pushes(lines);
    PushesGiveLines([], lines);
    assert [] + lines == lines;
  }

  lemma OneCommand(s: Server, cmd: Command, reply: Reply)
    ensures DoAll(s, [cmd], [reply]) == Do(s, cmd, reply)
  {
    assert [cmd][1..] == [] && [reply][1..] == [];
  }

  lemma AllCarriedParts(replies: seq<Reply>, x: seq<Reply>)
    requires |replies| >= 2 && x == replies[1..|replies| - 1]
    ensures AllCarried(replies) <==> Carried(replies[0]) && AllCarried(x) && Carried(replies[|replies| - 1])
  {
    if Carried(replies[0]) && AllCarried(x) && Carried(replies[|replies| - 1]) {
      forall i | 0 <= i < |replies| ensures Carried(replies[i]) {
        assert 0 < i < |replies| - 1 ==> replies[i] == x[i - 1];
      }
    }
  }

  // ------------------------------------------------------------------ what the answer means

  lemma ReportedIsCarried(replies: seq<Reply>)
    ensures Reported(replies) ==> (AllCarried(replies) <==> !SomeRefused(replies))
  {
    if Reported(replies) && !SomeRefused(replies) {
      forall i | 0 <= i < |replies| ensures Carried(replies[i]) {
        assert !replies[i].Lost? && !replies[i].Refused?;
      }
    }
  }

  /** Once MULTI is accepted: a save that answers true has stored the new list exactly if no command was
      answered with an error, and one that answers false has replaced the list exactly if every command
      was carried out, EXEC with them, and only replies were lost. */
  lemma AnswerMeansStoredIff(list: seq<string>, lines: seq<string>, replies: seq<Reply>)
    requires |replies| == |Pipeline(lines)| && Carried(replies[0]) && list != lines
    ensures var (after, ok) := SaveLines(list, lines, replies);
      && (ok ==> (after == lines <==> !SomeRefused(replies)))
      && (!ok ==> (after == lines <==> AllCarried(replies)))
      && (after == lines || after == list)
  {
    SavedWholeIff(list, lines, replies);
    ReportedIsCarried(replies);
  }

  /** EXEC is answered with an error: the save answers true, and the list is what it was. */
  lemma ErrorReplyGoesUnnoticed(list: seq<string>, line: string)
    ensures SaveLines(list, [line], [Fine, Fine, Fine, Refused]) == (list, true)
  {
    var replies := [Fine, Fine, Fine, Refused];
    SavedWholeIff(list, [line], replies);
    assert !Carried(replies[3]);
  }

  /** EXEC is carried out and its reply is lost: the save answers false, and the new list is there. */
  lemma LostReplyHidesSave(list: seq<string>, line: string)
    ensures SaveLines(list, [line], [Fine, Fine, Fine, Lost(true)]) == ([line], false)
  {
    var replies := [Fine, Fine, Fine, Lost(true)];
    SavedWholeIff(list, [line], replies);
    assert replies[3].Lost?;
  }

  // ------------------------------------------------------------------ MULTI answered with an error

  function KeptLines(lines: seq<string>, replies: seq<Reply>): seq<string>
    requires |lines| == |replies|
    decreases |lines|
  {
    if lines == [] then []
    else (if Carried(replies[0]) then [lines[0]] else []) + KeptLines(lines[1..], replies[1..])
  }

  lemma {:induction false} PushedAtOnce(s: Server, lines: seq<string>, replies: seq<Reply>)
    requires |lines| == |replies| && s.queued.None?
    ensures DoAll(s, Pushes(lines), replies) == s.(list := s.list + KeptLines(lines, replies))
    decreases |lines|
  {
    if lines == [] {
      assert s.list + [] == s.list;
    } else {
      var next := Do(s, RPush(lines[0]), replies[0]);
      assert Pushes(lines)[1..] == Pushes(lines[1..]);
      PushedAtOnce(next, lines[1..], replies[1..]);
      var first := if Carried(replies[0]) then [lines[0]] else [];
      assert s.list + first + KeptLines(lines[1..], replies[1..])
          == s.list + (first + KeptLines(lines[1..], replies[1..]));
    }
  }

  /** Without MULTI nothing holds the commands together: each takes effect or not by itself. */
  lemma NotGuarded(list: seq<string>, lines: seq<string>, replies: seq<Reply>)
    requires |replies| == |Pipeline(lines)| && !Carried(replies[0])
    ensures SaveLines(list, lines, replies).0
      == (if Carried(replies[1]) then [] else list) + KeptLines(lines, replies[2..|replies| - 1])
  {
    var n := |replies| - 1;
    var x := replies[2..n];
    var s0 := Server(list, None, false);
    assert Pipeline(lines) == [Multi] + ([Del] + (Pushes(lines) + [Exec]));
    assert replies == [replies[0]] + ([replies[1]] + (x + [replies[n]]));
    DoAllSplit(s0, [Multi], [Del] + (Pushes(lines) + [Exec]), [replies[0]], [replies[1]] + (x + [replies[n]]));
    OneCommand(s0, Multi, replies[0]);
    DoAllSplit(s0, [Del], Pushes(lines) + [Exec], [replies[1]], x + [replies[n]]);
    OneCommand(s0, Del, replies[1]);
    var s1 := Do(s0, Del, replies[1]);
    DoAllSplit(s1, Pushes(lines), [Exec], x, [replies[n]]);
    PushedAtOnce(s1, lines, x);
    OneCommand(DoAll(s1, Pushes(lines), x), Exec, replies[n]);
  }

  /** MULTI and one RPUSH are answered with errors: half a list is stored, and the save answers true. */
  lemma HalfAListSaved(list: seq<string>, a: string, b: string)
    ensures SaveLines(list, [a, b], [Refused, Fine, Fine, Refused, Refused]) == ([a], true)
  {
    var replies := [Refused, Fine, Fine, Refused, Refused];
    NotGuarded(list, [a, b], replies);
    assert replies[2..4] == [Fine, Refused] && [Fine, Refused][1..] == [Refused] && [a, b][1..] == [b];
    assert KeptLines([b], [Refused]) == [];
    assert [] + [a] == [a] && [a] + [] == [a];
  }

  // ------------------------------------------------------------------ a flush over these commands

  lemma FlushSteps(s: Sys, lim: Limits, carriedOut: bool)
    requires SysInv(s) && s.saving.None? && s.dirty
    ensures var c := Step(s, lim, Capture);
      && SysInv(c) && Enabled(c, Save(carriedOut))
      && var q := Step(c, lim, Save(carriedOut));
         && SysInv(q) && q.core == s.core && Step(q, lim, Capture) == q
         && q.stored == if carriedOut then ImageOf(s.core) else s.stored
  {
    StepKeepsInv(s, lim, Capture);
    StepKeepsInv(Step(s, lim, Capture), lim, Save(carriedOut));
  }

  /** A flush of a queue in any reachable state, down to the replies (MULTI accepted): the list goes on
      holding the image the store is said to hold; the state is stored exactly if every command was carried
      out; and a save that answers true has lost it exactly if some command was answered with an error. */
  lemma FlushThroughRedis(s: Sys, lim: Limits, list: seq<string>, snap: Snapshot, replies: seq<Reply>)
    requires SysInv(s) && s.saving.None? && s.dirty && Storable(s.core)
    requires LinesOf(list, s.stored) && IsSnapshotOf(snap, s.core)
    requires s.stored != ImageOf(s.core)
    ensures InRange(snap)
    ensures |replies| == |Pipeline(SavedLines(snap))| && Carried(replies[0]) ==>
      var (after, ok) := SaveLines(list, SavedLines(snap), replies);
      var c := Step(s, lim, Capture);
      && SysInv(c) && Enabled(c, Save(AllCarried(replies)))
      && var q := Step(c, lim, Save(AllCarried(replies)));
         && SysInv(q) && q.core == s.core && LinesOf(after, q.stored)
         && (q.stored == ImageOf(s.core) <==> AllCarried(replies))
         && (ok ==> (q.stored != ImageOf(s.core) <==> SomeRefused(replies)))
         && Step(q, lim, Capture) == q
  {
    SnapshotIsStorable(s.core, s.inFlight, snap);
    if |replies| == |Pipeline(SavedLines(snap))| && Carried(replies[0]) {
      FlushSteps(s, lim, AllCarried(replies));
      SavedWholeIff(list, SavedLines(snap), replies);
      assert LinesFrom(SavedLines(snap), ImageOf(s.core), snap, s.core, s.inFlight);
      ReportedIsCarried(replies);
    }
  }

  /** What one step does to the list: a save sends the lines of a snapshot of the copy; MULTI is accepted. */
  ghost predicate ListStep(s: Sys, ev: Event, list: seq<string>, after: seq<string>, lines: seq<string>,
                           replies: seq<Reply>) {
    if ev.Save? && s.saving.Some? then
      && LinesOf(lines, s.saving.value) && |replies| == |Pipeline(lines)| && Carried(replies[0])
      && ev.carriedOut == AllCarried(replies) && after == SaveLines(list, lines, replies).0
    else after == list
  }

  lemma ListStepKeeps(s: Sys, lim: Limits, ev: Event, list: seq<string>, after: seq<string>, lines: seq<string>,
                      replies: seq<Reply>)
    requires SysInv(s) && Enabled(s, ev) && ListStep(s, ev, list, after, lines, replies) && LinesOf(list, s.stored)
    ensures LinesOf(after, Step(s, lim, ev).stored)
  {
    if ev.Save? {
      SavedWholeIff(list, lines, replies);
    }
  }

  /** `lists[k]` is the list after `k` events. */
  ghost predicate ListRun(s: Sys, lim: Limits, evs: seq<Event>, lists: seq<seq<string>>)
    requires SysInv(s) && Legal(s, lim, evs)
    decreases |evs|
  {
    && |lists| == |evs| + 1
    && (evs != [] ==>
          && (exists lines, replies :: ListStep(s, evs[0], lists[0], lists[1], lines, replies))
          && (StepKeepsInv(s, lim, evs[0]); ListRun(Step(s, lim, evs[0]), lim, evs[1..], lists[1..])))
  }

  /** Over any run, reply by reply, the list holds the image that the runs of MatchProtocol call stored. */
  lemma {:induction false} ListHoldsWhatIsStored(s: Sys, lim: Limits, evs: seq<Event>, lists: seq<seq<string>>)
    requires SysInv(s) && Legal(s, lim, evs) && ListRun(s, lim, evs, lists) && LinesOf(lists[0], s.stored)
    ensures LinesOf(lists[|evs|], Run(s, lim, evs).stored)
    decreases |evs|
  {
    if evs != [] {
      StepKeepsInv(s, lim, evs[0]);
      var q := Step(s, lim, evs[0]);
      var lines, replies :| ListStep(s, evs[0], lists[0], lists[1], lines, replies);
      ListStepKeeps(s, lim, evs[0], lists[0], lists[1], lines, replies);
      ListHoldsWhatIsStored(q, lim, evs[1..], lists[1..]);
    }
  }

  /** A crash at any moment of such a run: what is restarted from the list is a state of the run, unless
      nothing was stored since the start. */
  lemma CrashLeavesAState(s0: Sys, lim: Limits, evs: seq<Event>, lists: seq<seq<string>>, now: int)
    requires SysInv(s0) && HonestSys(s0) && Legal(s0, lim, evs) && s0.saving.None?
    requires forall i :: 0 <= i < |evs| ==> HonestEvent(evs[i])
    requires ListRun(s0, lim, evs, lists) && LinesOf(lists[0], s0.stored)
    ensures Run(s0, lim, evs).stored == s0.stored
      || exists k :: 0 <= k <= |evs| && RestartedAt(s0, lim, evs, k, lists[|evs|], now)
  {
    ListHoldsWhatIsStored(s0, lim, evs, lists);
    if Run(s0, lim, evs).stored != s0.stored {
      CrashAtAnyMoment(s0, lim, evs, lists[|evs|], now);
    }
  }

  // ------------------------------------------------------------------ the save as a program

  lemma OneLineMore(lines: seq<string>, line: string, rest: seq<string>)
    ensures lines + ([line] + rest) == lines + [line] + rest
  {
  }

  class RedisMatchQueueStore {
    var list: seq<string>                 // under the queue's key
    var queued: Option<seq<Command>>
    var broken: bool

    function State(): Server
      reads this
    {
      Server(list, queued, broken)
    }

    /** The server's part of one command. */
    method Process(cmd: Command, reply: Reply)
      modifies this
      ensures State() == Do(old(State()), cmd, reply)
    {
      match cmd {
        case Multi =>
          if Carried(reply) {
            queued, broken := Some([]), false;
          }
        case Exec =>
          if queued.Some? && !broken && Carried(reply) {
            Apply(queued.value);
          }
          queued, broken := None, false;
        case _ =>
          if queued.None? {
            if Carried(reply) {
              list := Effect(list, cmd);
            }
          } else if Carried(reply) {
            queued := Some(queued.value + [cmd]);
          } else {
            broken := true;
          }
      }
    }

    method Apply(cmds: seq<Command>)
      modifies this`list
      ensures list == Effects(old(list), cmds)
    {
      var left := cmds;
      while left != []
        invariant Effects(list, left) == Effects(old(list), cmds)
        decreases |left|
      {
        list := Effect(list, left[0]);
        left := left[1..];
      }
    }

    /** The lines of a snapshot; an entry the encoder refuses is left out. */
    method EncodeAll(snap: Snapshot) returns (lines: seq<string>)
      requires InRange(snap)
      ensures lines == SavedLines(snap)
    {
      lines := EncodeQueued(snap.queued, MatchedLines(snap.matched));
      var more := EncodeMatched(snap.matched);
      lines := lines + more;
    }

    method EncodeQueued(xs: seq<QueuedAt>, ghost tail: seq<string>) returns (lines: seq<string>)
      requires forall x :: x in xs ==> Codec.IsInt64(x.1)
      ensures lines + tail == QueuedLines(xs, tail)
    {
      lines := [];
      var left := xs;
      assert lines + QueuedLines(left, tail) == QueuedLines(xs, tail);
      while left != []
        invariant forall x :: x in left ==> Codec.IsInt64(x.1)
        invariant lines + QueuedLines(left, tail) == QueuedLines(xs, tail)
        decreases |left|
      {
        var line := Codec.Encode(QueuedRowOf(left[0]));
        ghost var rest := QueuedLines(left[1..], tail);
        if line.Some? {
          OneLineMore(lines, line.value, rest);
          lines := lines + [line.value];
        }
        left := left[1..];
      }
    }

    method EncodeMatched(ms: seq<Match>) returns (lines: seq<string>)
      requires forall m :: m in ms ==> Codec.IsInt64(m.stamp)
      ensures lines == MatchedLines(ms)
    {
      lines := [];
      var left := ms;
      while left != []
        invariant forall m :: m in left ==> Codec.IsInt64(m.stamp)
        invariant lines + MatchedLines(left) == MatchedLines(ms)
        decreases |left|
      {
        var line := Codec.Encode(MatchedRowOf(left[0]));
        ghost var rest := MatchedLines(left[1..]);
        if line.Some? {
          OneLineMore(lines, line.value, rest);
          lines := lines + [line.value];
        }
        left := left[1..];
      }
      assert lines + [] == lines;
    }

    /** The replies are read one by one up to the first that does not come. */
    method AllArrived(replies: seq<Reply>) returns (ok: bool)
      ensures ok <==> Reported(replies)
    {
      var i := 0;
      while i < |replies|
        invariant 0 <= i <= |replies| && forall k :: 0 <= k < i ==> !replies[k].Lost?
      {
        if replies[i].Lost? {
          return false;
        }
        i := i + 1;
      }
      return true;
    }

    method Save(snap: Snapshot, replies: seq<Reply>) returns (ok: bool)
      requires InRange(snap) && |replies| == |Pipeline(SavedLines(snap))| && queued.None? && !broken
      modifies this
      ensures (list, ok) == SaveLines(old(list), SavedLines(snap), replies)
      ensures queued.None? && !broken
    {
      var lines := EncodeAll(snap);
      var cmds := Pipeline(lines);
      ghost var before := State();
      var i := 0;
      assert cmds[0..] == cmds && replies[0..] == replies;
      while i < |cmds|
        invariant 0 <= i <= |cmds| && DoAll(State(), cmds[i..], replies[i..]) == DoAll(before, cmds, replies)
        invariant i == |cmds| ==> queued.None? && !broken
      {
        assert cmds[i..][1..] == cmds[i + 1..] && replies[i..][1..] == replies[i + 1..];
        Process(cmds[i], replies[i]);
        i := i + 1;
      }
      ok := AllArrived(replies);
    }
  }
}
