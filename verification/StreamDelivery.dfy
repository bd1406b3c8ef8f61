/** What the browser delivers from a connection that resumed and was then cut. */
module StreamDelivery {
  import opened Wrappers
  import opened RoomCore
  import opened RoomHistory
  import opened StreamText
  import opened StreamProtocol
  import opened StreamResume
  import opened StreamTheorems
  import Text = Sse

  /** The ids of the delivered room states, in order. */
  function StateIds(ds: seq<Text.Delivery>): seq<Option<nat>> {
    if ds == [] then []
    else (if ds[0].event == "room.state" || ds[0].event == "room.finished" then [ds[0].id] else []) + StateIds(ds[1..])
  }

  function FrameIds(states: seq<Snapshot>): (r: seq<Option<nat>>)
    ensures |r| == |states| && forall k :: 0 <= k < |r| ==> r[k] == FrameId(states[k])
  {
    seq(|states|, k requires 0 <= k < |states| => FrameId(states[k]))
  }

  lemma {:induction false} StatesFromFront(got: seq<Sent>)
    requires got != []
    ensures States(got) == (if got[0].StateSent? then [got[0].s] else []) + States(got[1..])
    decreases |got|
  {
    var n := |got| - 1;
    if n == 0 {
      assert got[..0] == [] && got[1..] == [];
    } else {
      StatesFromFront(got[..n]);
      assert got[..n][1..] == got[1..][..n - 1] && got[1..][n - 1] == got[n];
    }
  }

  lemma {:induction false} StatesOfPrefix(got: seq<Sent>, k: nat)
    requires k <= |got|
    ensures States(got[..k]) <= States(got)
    decreases |got|
  {
    if k < |got| {
      StatesOfPrefix(got[..|got| - 1], k);
      assert got[..|got| - 1][..k] == got[..k];
    } else {
      assert got[..k] == got;
    }
  }

  lemma StateIdsAppend(a: Option<Text.Delivery>, later: seq<Text.Delivery>)
    ensures StateIds(Text.OptSeq(a) + later) == StateIds(Text.OptSeq(a)) + StateIds(later)
  {
    if a.Some? {
      var ds := Text.OptSeq(a) + later;
      assert ds[0] == a.value && ds[1..] == later && Text.OptSeq(a)[1..] == [];
    } else {
      assert Text.OptSeq(a) + later == later;
    }
  }

  lemma OneReadState(m: Sent, time: int)
    ensures StateIds(Text.OptSeq(Text.Reading(MessageOf(m, time)))) == if m.StateSent? then [FrameId(m.s)] else []
  {
    var ds := Text.OptSeq(Text.Reading(MessageOf(m, time)));
    assert ds != [] ==> ds[1..] == [];
  }

  /** The reader's room states are the states among the messages. */
  lemma {:induction false} ReadStates(got: seq<Sent>, times: seq<int>)
    requires |got| == |times|
    ensures StateIds(Text.ReadingAll(Messages(got, times))) == FrameIds(States(got))
    decreases |got|
  {
    if got != [] {
      ReadStates(got[1..], times[1..]);
      StatesFromFront(got);
      OneReadState(got[0], times[0]);
      assert Messages(got, times)[1..] == Messages(got[1..], times[1..]);
      StateIdsAppend(Text.Reading(MessageOf(got[0], times[0])), Text.ReadingAll(Messages(got[1..], times[1..])));
    }
  }

  lemma {:induction false} MessagesOfPrefix(got: seq<Sent>, times: seq<int>, k: nat)
    requires |got| == |times| && k <= |got|
    ensures |Messages(got, times)| == |got| && Messages(got, times)[..k] == Messages(got[..k], times[..k])
    decreases |got|
  {
    if got != [] {
      if k == 0 {
        MessagesOfPrefix(got[1..], times[1..], 0);
      } else {
        MessagesOfPrefix(got[1..], times[1..], k - 1);
        assert got[..k][1..] == got[1..][..k - 1] && times[..k][1..] == times[1..][..k - 1];
      }
    }
  }

  lemma PrefixIsPlain(text: string, n: nat, chunks: seq<string>)
    requires '\r' !in text && n <= |text| && Text.Concat(chunks) == text[..n]
    ensures Text.NormalizedAll(chunks) == text[..n]
  {
    Text.NormalizedAllPlain(chunks);
  }

  lemma CutMessages(ms: seq<Text.Message>, n: nat, chunks: seq<string>) returns (k: nat)
    requires forall m :: m in ms ==> Text.Printable(m)
    requires n <= |Text.PrintAll(ms)| && Text.Concat(chunks) == Text.PrintAll(ms)[..n]
    ensures k <= |ms| && Text.Drain(Text.NormalizedAll(chunks)).0 == Text.ReadingAll(ms[..k])
  {
    Text.PrintedHasNoCr(ms);
    PrefixIsPlain(Text.PrintAll(ms), n, chunks);
    k := Text.CutStreamDeliversPrefix(ms, n);
  }

  /** The messages delivered from the first n characters are the first k. */
  lemma CutReading(got: seq<Sent>, times: seq<int>, n: nat, chunks: seq<string>) returns (k: nat)
    requires |got| == |times| && n <= |Text.PrintAll(Messages(got, times))|
    requires Text.Concat(chunks) == Text.PrintAll(Messages(got, times))[..n]
    ensures k <= |got| && k <= |times|
    ensures Text.Drain(Text.NormalizedAll(chunks)).0 == Text.ReadingAll(Messages(got[..k], times[..k]))
  {
    MessagesPrintable(got, times);
    MessagesOfPrefix(got, times, 0);
    k := CutMessages(Messages(got, times), n, chunks);
    MessagesOfPrefix(got, times, k);
  }

  lemma FrameIdsOfPrefix(a: seq<Snapshot>, b: seq<Snapshot>)
    requires a <= b
    ensures FrameIds(a) <= FrameIds(b)
  {
  }

  /** However many characters of what was written arrive, and however cut into chunks: the ids of the room
      states the browser delivers are those of a first part of the states written, in order. */
  lemma CutConnectionDelivers(got: seq<Sent>, times: seq<int>, n: nat, chunks: seq<string>)
    requires |got| == |times| && n <= |Text.PrintAll(Messages(got, times))|
    requires Text.Concat(chunks) == Text.PrintAll(Messages(got, times))[..n]
    ensures StateIds(Text.Drain(Text.NormalizedAll(chunks)).0) <= FrameIds(States(got))
  {
    var k := CutReading(got, times, n, chunks);
    ReadStates(got[..k], times[..k]);
    StatesOfPrefix(got, k);
    FrameIdsOfPrefix(States(got[..k]), States(got));
  }

  /** L + 1, L + 2, ... up to f, each once, and after those nothing below f. */
  predicate CountsOn(ids: seq<Option<nat>>, l: nat, f: int) {
    forall k :: 0 <= k < |ids| ==>
      ids[k].Some? && if l + 1 + k <= f then ids[k].value == l + 1 + k else ids[k].value >= f
  }

  lemma ResumedCountsOn(got: seq<Sent>, log: seq<Snapshot>, since: nat, ids: seq<Option<nat>>)
    requires Resumed(got, log, since) && ids <= FrameIds(States(got))
    ensures log != [] && CountsOn(ids, since, Newest(log))
  {
    var states := States(got);
    forall k | 0 <= k < |ids|
      ensures ids[k].Some?
      ensures if since + 1 + k <= Newest(log) then ids[k].value == since + 1 + k else ids[k].value >= Newest(log)
    {
      assert ids[k] == FrameId(states[k]);
    }
  }

  /** A cut of the text of these messages, in the chunks that arrived. */
  predicate Arrives(got: seq<Sent>, times: seq<int>, n: nat, chunks: seq<string>) {
    && |times| == |got| && n <= |Text.PrintAll(Messages(got, times))|
    && Text.Concat(chunks) == Text.PrintAll(Messages(got, times))[..n]
  }

  /** Over any run of the hub, whatever the network cuts: the ids of the room states that a browser resuming
      from frame L delivers are L + 1, L + 2, ... in order and without a gap, and once it has them all none
      is older than the newest. */
  lemma ResumedBrowserCountsOn(start: Sys, evs: seq<HubEvent>, id: nat, times: seq<int>, n: nat, chunks: seq<string>)
    requires Start(start) && SysInv(start) && Legal(start, evs)
    requires var s := Run(start, evs);
      && id in s.tracks && id in s.got && s.tracks[id].since.Some? && s.tracks[id].since.value >= 0
      && Arrives(s.got[id], times, n, chunks)
    ensures var t := Run(start, evs).tracks[id];
      var ids := StateIds(Text.Drain(Text.NormalizedAll(chunks)).0);
      if t.stage.Waiting? then ids == []
      else !t.stage.Direct? && t.stage.log != [] && CountsOn(ids, t.since.value, Newest(t.stage.log))
  {
    ResumeWithoutGapOrDuplicate(start, evs, id);
    var s := Run(start, evs);
    CutConnectionDelivers(s.got[id], times, n, chunks);
    if !s.tracks[id].stage.Waiting? {
      ResumedCountsOn(s.got[id], s.tracks[id].stage.log, s.tracks[id].since.value,
                      StateIds(Text.Drain(Text.NormalizedAll(chunks)).0));
    }
  }
}
