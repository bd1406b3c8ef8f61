/** The JSON text the hub puts into its events: escaping, payloads and envelopes.

    Escapes are those of section 7 of RFC 8259. */
module StreamText {
  import opened Wrappers
  import opened Decimals
  import opened Sse
  import Core = RoomCore
  import Store = RoomStore

  // ------------------------------------------------------------------ escaping

  function HexDigit(d: int): char
    requires 0 <= d < 16
  {
    if d < 10 then ('0' as int + d) as char else ('a' as int + (d - 10)) as char
  }

  /** `\u%04x` of a code below 256. */
  function UnicodeEscape(code: int): string
    requires 0 <= code < 256
  {
    "\\u00" + [HexDigit(code / 16), HexDigit(code % 16)]
  }

  function EscapeChar(c: char): string {
    if c == '\"' then "\\\""
    else if c == '\\' then "\\\\"
    else if c == '\n' then "\\n"
    else if c == '\r' then "\\r"
    else if c == '\t' then "\\t"
    else if c < ' ' then UnicodeEscape(c as int)
    else [c]
  }

  function JsonEscape(s: string): string {
    if s == "" then "" else EscapeChar(s[0]) + JsonEscape(s[1..])
  }

  // ------------------------------------------------------------------ reading a JSON string

  function HexValue(c: char): (d: Option<int>)
    ensures d.Some? ==> 0 <= d.value < 16
  {
    if '0' <= c <= '9' then Some(c as int - '0' as int)
    else if 'a' <= c <= 'f' then Some(c as int - 'a' as int + 10)
    else if 'A' <= c <= 'F' then Some(c as int - 'A' as int + 10)
    else None
  }

  function FourHex(s: string): (code: Option<int>)
    requires |s| == 4
    ensures code.Some? ==> 0 <= code.value < 0x10000
  {
    var a, b, c, d := HexValue(s[0]), HexValue(s[1]), HexValue(s[2]), HexValue(s[3]);
    if a.None? || b.None? || c.None? || d.None? then None
    else Some(((a.value * 16 + b.value) * 16 + c.value) * 16 + d.value)
  }

  function SimpleEscape(c: char): Option<char> {
    if c == '\"' || c == '\\' || c == '/' then Some(c)
    else if c == 'b' then Some('\U{8}')
    else if c == 'f' then Some('\U{c}')
    else if c == 'n' then Some('\n')
    else if c == 'r' then Some('\r')
    else if c == 't' then Some('\t')
    else None
  }

  /** One character of a string, plain or escaped, and the text after it. Surrogate pairs are not read. */
  function ReadChar(s: string): (r: Option<(char, string)>)
    requires s != ""
    ensures r.Some? ==> |r.value.1| < |s|
  {
    if s[0] < ' ' then None
    else if s[0] != '\\' then Some((s[0], s[1..]))
    else if |s| < 2 then None
    else if s[1] == 'u' then
      if |s| < 6 then None
      else match FourHex(s[2..6])
        case None => None
        case Some(code) => if 0xd800 <= code < 0xe000 then None else Some((code as char, s[6..]))
    else match SimpleEscape(s[1])
      case None => None
      case Some(c) => Some((c, s[2..]))
  }

  /** The value of a string up to its closing quotation mark, and the text after the mark. */
  function ReadJsonString(s: string): Option<(string, string)>
    decreases |s|
  {
    if s == "" then None
    else if s[0] == '\"' then Some(("", s[1..]))
    else match ReadChar(s)
      case None => None
      case Some((c, rest)) =>
        match ReadJsonString(rest)
        case None => None
        case Some((value, after)) => Some(([c] + value, after))
  }

  lemma HexReadsBack(code: int)
    requires 0 <= code < 256
    ensures FourHex("00" + [HexDigit(code / 16), HexDigit(code % 16)]) == Some(code)
  {
    HexDigitReadsBack(code / 16);
    HexDigitReadsBack(code % 16);
  }

  lemma HexDigitReadsBack(d: int)
    requires 0 <= d < 16
    ensures HexValue(HexDigit(d)) == Some(d)
  {
  }

  lemma EscapeCharReadsBack(c: char, rest: string)
    ensures var s := EscapeChar(c) + rest;
      s != "" && s[0] != '\"' && ReadChar(s) == Some((c, rest))
  {
    var e := EscapeChar(c);
    var s := e + rest;
    if c < ' ' && c != '\n' && c != '\r' && c != '\t' {
      HexReadsBack(c as int);
      assert e[2..6] == "00" + [HexDigit(c as int / 16), HexDigit(c as int % 16)];
      assert s[2..6] == e[2..6] && s[6..] == rest;
    } else if |e| == 2 {
      assert s[2..] == rest;
    } else {
      assert s[1..] == rest;
    }
  }

  /** An escaped string, closed by a quotation mark and followed by anything, reads back as itself. */
  lemma {:induction false} EscapeReadsBack(s: string, rest: string)
    ensures ReadJsonString(JsonEscape(s) + "\"" + rest) == Some((s, rest))
  {
    if s != "" {
      var later := JsonEscape(s[1..]) + "\"" + rest;
      assert JsonEscape(s) + "\"" + rest == EscapeChar(s[0]) + later;
      EscapeCharReadsBack(s[0], later);
      EscapeReadsBack(s[1..], rest);
      assert [s[0]] + s[1..] == s;
    }
  }

  predicate NoControl(s: string) {
    forall i :: 0 <= i < |s| ==> s[i] >= ' '
  }

  lemma EscapeCharNoControl(c: char)
    ensures NoControl(EscapeChar(c))
  {
  }

  lemma {:induction false} EscapeHasNoControl(s: string)
    ensures NoControl(JsonEscape(s))
  {
    if s != "" {
      EscapeCharNoControl(s[0]);
      EscapeHasNoControl(s[1..]);
    }
  }

  // ------------------------------------------------------------------ payloads

  function Quoted(key: string, value: string): string {
    "\"" + key + "\":\"" + JsonEscape(value) + "\""
  }

  function Plain(key: string, value: string): string {
    "\"" + key + "\":" + value
  }

  function Bool(b: bool): string {
    if b then "true" else "false"
  }

  function Commas(items: seq<string>): string {
    if items == [] then "" else if |items| == 1 then items[0] else items[0] + "," + Commas(items[1..])
  }

  function Object(fields: seq<string>): string {
    "{" + Commas(fields) + "}"
  }

  function PlayerJson(p: Core.Player): string {
    Object([Quoted("player_id", p.id), Plain("hp", IntText(p.hp)), Plain("connected", Bool(p.joined)),
            Plain("online", Bool(p.online))])
  }

  function PlayerList(players: seq<Core.Player>): seq<string> {
    seq(|players|, i requires 0 <= i < |players| => PlayerJson(players[i]))
  }

  function RoomIdentity(s: Core.Snapshot): seq<string> {
    [Quoted("room_id", s.roomId), Quoted("match_id", s.matchId), Quoted("state", Store.PhaseText(s.phase)),
     Plain("frame", IntText(s.frame)), Plain("players", "[" + Commas(PlayerList(s.players)) + "]")]
  }

  function RoomEnding(s: Core.Snapshot): seq<string> {
    [Quoted("finish_reason", Store.ReasonText(s.reason)), Quoted("winner_id", s.winner),
     Plain("started_at_ms", IntText(s.startedAt)), Plain("finished_at_ms", IntText(s.finishedAt))]
  }

  function RoomPayload(s: Core.Snapshot): string {
    Object(RoomIdentity(s) + RoomEnding(s))
  }

  function ResetPayload(reason: ResetReason, s: Core.Snapshot): string {
    Object([Quoted("reason", ResetText(reason)), Plain("room", RoomPayload(s))])
  }

  function ReadyPayload(player: string, room: string, now: int): string {
    Object([Quoted("player_id", player), Quoted("room_id", room), Plain("server_time_ms", IntText(now))])
  }

  /** The event kinds need no escaping. */
  function Envelope(kind: string, sequence: int, now: int, payload: string): string {
    Object([Plain("version", "1"), Plain("type", "\"" + kind + "\""), Plain("sequence", IntText(sequence)),
            Plain("timestamp_ms", IntText(now)), Plain("payload", payload)])
  }

  // ------------------------------------------------------------------ the hub's events

  datatype ResetReason = IdMalformed | IdAhead | IdOutOfWindow | IdCurrent

  function ResetText(r: ResetReason): string {
    match r
    case IdMalformed => "id_malformed"
    case IdAhead => "id_ahead"
    case IdOutOfWindow => "id_out_of_window"
    case IdCurrent => "id_current"
  }

  /** Everything a tick writes to a subscriber. */
  datatype Sent =
    | StateSent(s: Core.Snapshot)
    | ResetSent(reason: ResetReason, s: Core.Snapshot)
    | ReadySent(player: string, room: string)
    | PingSent

  predicate Terminal(s: Core.Snapshot) {
    s.phase.Finished? || s.phase.Aborted?
  }

  function FrameId(s: Core.Snapshot): Option<nat> {
    if s.frame >= 0 then Some(s.frame) else None
  }

  function MessageOf(m: Sent, now: int): Message {
    match m
    case StateSent(s) =>
      var kind := if Terminal(s) then "room.finished" else "room.state";
      Event(kind, Envelope(kind, s.frame, now, RoomPayload(s)), FrameId(s))
    case ResetSent(reason, s) =>
      Event("stream.reset", Envelope("stream.reset", s.frame, now, ResetPayload(reason, s)), FrameId(s))
    case ReadySent(player, room) =>
      Event("session.ready", Envelope("session.ready", 0, now, ReadyPayload(player, room, now)), None)
    case PingSent => Heartbeat
  }

  // ------------------------------------------------------------------ every event is one line

  ghost predicate AllNoControl(items: seq<string>) {
    forall i :: 0 <= i < |items| ==> NoControl(items[i])
  }

  lemma {:induction false} CommasNoControl(items: seq<string>)
    requires AllNoControl(items)
    ensures NoControl(Commas(items))
  {
    if |items| > 1 {
      CommasNoControl(items[1..]);
    }
  }

  lemma ObjectNoControl(fields: seq<string>)
    requires AllNoControl(fields)
    ensures NoControl(Object(fields))
  {
    CommasNoControl(fields);
  }

  lemma QuotedNoControl(key: string, value: string)
    requires NoControl(key)
    ensures NoControl(Quoted(key, value))
  {
    EscapeHasNoControl(value);
  }

  lemma PlainNoControl(key: string, value: string)
    requires NoControl(key) && NoControl(value)
    ensures NoControl(Plain(key, value))
  {
  }

  lemma IntNoControl(v: int)
    ensures NoControl(IntText(v))
  {
    var s := Digits(if v < 0 then -v else v);
    DigitsOnly(if v < 0 then -v else v);
    forall i | 0 <= i < |s| ensures s[i] >= ' ' {
      assert s[i] in s;
    }
  }

  lemma IntFieldNoControl(key: string, v: int)
    requires NoControl(key)
    ensures NoControl(Plain(key, IntText(v)))
  {
    IntNoControl(v);
    PlainNoControl(key, IntText(v));
  }

  lemma PlayerNoControl(p: Core.Player)
    ensures NoControl(PlayerJson(p))
  {
    QuotedNoControl("player_id", p.id);
    IntFieldNoControl("hp", p.hp);
    PlainNoControl("connected", Bool(p.joined));
    PlainNoControl("online", Bool(p.online));
    ObjectNoControl([Quoted("player_id", p.id), Plain("hp", IntText(p.hp)), Plain("connected", Bool(p.joined)),
                     Plain("online", Bool(p.online))]);
  }

  lemma PlayersNoControl(players: seq<Core.Player>)
    ensures NoControl(Plain("players", "[" + Commas(PlayerList(players)) + "]"))
  {
    forall i | 0 <= i < |players| ensures NoControl(PlayerList(players)[i]) {
      PlayerNoControl(players[i]);
    }
    CommasNoControl(PlayerList(players));
    PlainNoControl("players", "[" + Commas(PlayerList(players)) + "]");
  }

  lemma IdentityNoControl(s: Core.Snapshot)
    ensures AllNoControl(RoomIdentity(s))
  {
    QuotedNoControl("room_id", s.roomId);
    QuotedNoControl("match_id", s.matchId);
    QuotedNoControl("state", Store.PhaseText(s.phase));
    IntFieldNoControl("frame", s.frame);
    PlayersNoControl(s.players);
  }

  lemma ReasonKeysNoControl()
    ensures NoControl("finish_reason") && NoControl("winner_id")
  {
  }

  lemma TimeKeysNoControl()
    ensures NoControl("started_at_ms") && NoControl("finished_at_ms")
  {
  }

  lemma EndingNoControl(s: Core.Snapshot)
    ensures AllNoControl(RoomEnding(s))
  {
    ReasonKeysNoControl();
    TimeKeysNoControl();
    QuotedNoControl("finish_reason", Store.ReasonText(s.reason));
    QuotedNoControl("winner_id", s.winner);
    IntFieldNoControl("started_at_ms", s.startedAt);
    IntFieldNoControl("finished_at_ms", s.finishedAt);
  }

  lemma RoomPayloadNoControl(s: Core.Snapshot)
    ensures NoControl(RoomPayload(s))
  {
    IdentityNoControl(s);
    EndingNoControl(s);
    ObjectNoControl(RoomIdentity(s) + RoomEnding(s));
  }

  lemma ResetNoControl(reason: ResetReason, s: Core.Snapshot)
    ensures NoControl(ResetPayload(reason, s))
  {
    QuotedNoControl("reason", ResetText(reason));
    RoomPayloadNoControl(s);
    PlainNoControl("room", RoomPayload(s));
    ObjectNoControl([Quoted("reason", ResetText(reason)), Plain("room", RoomPayload(s))]);
  }

  lemma ReadyNoControl(player: string, room: string, now: int)
    ensures NoControl(ReadyPayload(player, room, now))
  {
    QuotedNoControl("player_id", player);
    QuotedNoControl("room_id", room);
    IntFieldNoControl("server_time_ms", now);
    ObjectNoControl([Quoted("player_id", player), Quoted("room_id", room), Plain("server_time_ms", IntText(now))]);
  }

  lemma EnvelopeIsOneLine(kind: string, sequence: int, now: int, payload: string)
    requires NoControl(kind) && NoControl(payload)
    ensures OneLine(Envelope(kind, sequence, now, payload)) && OneLine(kind)
  {
    PlainNoControl("version", "1");
    PlainNoControl("type", "\"" + kind + "\"");
    IntFieldNoControl("sequence", sequence);
    IntFieldNoControl("timestamp_ms", now);
    PlainNoControl("payload", payload);
    ObjectNoControl([Plain("version", "1"), Plain("type", "\"" + kind + "\""), Plain("sequence", IntText(sequence)),
                     Plain("timestamp_ms", IntText(now)), Plain("payload", payload)]);
  }

  lemma KindsNoControl()
    ensures NoControl("room.finished") && NoControl("room.state")
    ensures NoControl("stream.reset") && NoControl("session.ready")
  {
  }

  lemma StateIsPrintable(s: Core.Snapshot, now: int)
    ensures Printable(MessageOf(StateSent(s), now))
  {
    KindsNoControl();
    RoomPayloadNoControl(s);
    EnvelopeIsOneLine(if Terminal(s) then "room.finished" else "room.state", s.frame, now, RoomPayload(s));
  }

  lemma ResetIsPrintable(reason: ResetReason, s: Core.Snapshot, now: int)
    ensures Printable(MessageOf(ResetSent(reason, s), now))
  {
    KindsNoControl();
    ResetNoControl(reason, s);
    EnvelopeIsOneLine("stream.reset", s.frame, now, ResetPayload(reason, s));
  }

  lemma ReadyIsPrintable(player: string, room: string, now: int)
    ensures Printable(MessageOf(ReadySent(player, room), now))
  {
    KindsNoControl();
    ReadyNoControl(player, room, now);
    EnvelopeIsOneLine("session.ready", 0, now, ReadyPayload(player, room, now));
  }

  /** Whatever the ids contain, no event the hub writes can break the line structure of the stream. */
  lemma EveryMessageIsPrintable(m: Sent, now: int)
    ensures Printable(MessageOf(m, now))
  {
    match m
    case StateSent(s) => StateIsPrintable(s, now);
    case ResetSent(reason, s) => ResetIsPrintable(reason, s, now);
    case ReadySent(player, room) => ReadyIsPrintable(player, room, now);
    case PingSent =>
  }
}
