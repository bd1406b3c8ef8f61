/** The hub's event texts read back as JSON (RFC 8259): every field of a room reaches the client. */
module StreamJson {
  import opened Wrappers
  import opened Decimals
  import opened StreamText
  import Text = Sse
  import Core = RoomCore
  import Store = RoomStore

  datatype Json =
    | Str(text: string)
    | Num(n: int)
    | Flag(b: bool)
    | Arr(items: seq<Json>)
    | Obj(fields: seq<(string, Json)>)

  // ------------------------------------------------------------------ writing

  function Print(j: Json): string {
    match j
    case Str(s) => "\"" + JsonEscape(s) + "\""
    case Num(n) => IntText(n)
    case Flag(b) => Bool(b)
    case Arr(items) => "[" + Commas(seq(|items|, i requires 0 <= i < |items| => Print(items[i]))) + "]"
    case Obj(fields) =>
      Object(seq(|fields|, i requires 0 <= i < |fields| => Plain(fields[i].0, Print(fields[i].1))))
  }

  // ------------------------------------------------------------------ reading

  lemma {:induction false} ScanShrinks(s: string, value: nat, any: bool)
    ensures ScanNat(s, value, any).Some? ==>
      |ScanNat(s, value, any).value.1| <= |s| && (!any ==> |ScanNat(s, value, any).value.1| < |s|)
    decreases |s|
  {
    if s != [] && IsDigit(s[0]) {
      ScanShrinks(s[1..], 10 * value + DigitValue(s[0]), true);
    }
  }

  lemma {:induction false} StringShrinks(s: string)
    ensures ReadJsonString(s).Some? ==> |ReadJsonString(s).value.1| < |s|
    decreases |s|
  {
    if s != "" && s[0] != '\"' && ReadChar(s).Some? {
      StringShrinks(ReadChar(s).value.1);
    }
  }

  function ReadNumber(s: string): (r: Option<(Json, string)>)
    ensures r.Some? ==> |r.value.1| < |s|
  {
    var negative := s != "" && s[0] == '-';
    var digits := if negative then s[1..] else s;
    ScanShrinks(digits, 0, false);
    match ScanNat(digits, 0, false)
    case None => None
    case Some((n, rest)) => Some((Num(Signed(negative, n)), rest))
  }

  /** A value at the front of the text, and the text after it; there is no white space. */
  function ReadValue(s: string): (r: Option<(Json, string)>)
    ensures r.Some? ==> |r.value.1| < |s|
    decreases |s|, 1
  {
    if s == "" then None
    else if s[0] == '\"' then
      StringShrinks(s[1..]);
      (match ReadJsonString(s[1..])
       case None => None
       case Some((text, rest)) => Some((Str(text), rest)))
    else if "true" <= s then Some((Flag(true), s[4..]))
    else if "false" <= s then Some((Flag(false), s[5..]))
    else if "[]" <= s then Some((Arr([]), s[2..]))
    else if "{}" <= s then Some((Obj([]), s[2..]))
    else if s[0] == '[' then
      match ReadItems(s[1..])
      case None => None
      case Some((items, rest)) => Some((Arr(items), rest))
    else if s[0] == '{' then
      match ReadFields(s[1..])
      case None => None
      case Some((fields, rest)) => Some((Obj(fields), rest))
    else ReadNumber(s)
  }

  /** One or more values separated by commas, and the closing bracket. */
  function ReadItems(s: string): (r: Option<(seq<Json>, string)>)
    ensures r.Some? ==> |r.value.1| < |s|
    decreases |s|, 2
  {
    match ReadValue(s)
    case None => None
    case Some((item, rest)) =>
      if rest == "" then None
      else if rest[0] == ']' then Some(([item], rest[1..]))
      else if rest[0] != ',' then None
      else match ReadItems(rest[1..])
        case None => None
        case Some((items, after)) => Some(([item] + items, after))
  }

  function ReadFields(s: string): (r: Option<(seq<(string, Json)>, string)>)
    ensures r.Some? ==> |r.value.1| < |s|
    decreases |s|, 2
  {
    if s == "" || s[0] != '\"' then None
    else
      StringShrinks(s[1..]);
      match ReadJsonString(s[1..])
      case None => None
      case Some((key, colon)) =>
        if colon == "" || colon[0] != ':' then None
        else match ReadValue(colon[1..])
          case None => None
          case Some((value, rest)) =>
            if rest == "" then None
            else if rest[0] == '}' then Some(([(key, value)], rest[1..]))
            else if rest[0] != ',' then None
            else match ReadFields(rest[1..])
              case None => None
              case Some((fields, after)) => Some(([(key, value)] + fields, after))
  }

  // ------------------------------------------------------------------ what is written reads back

  /** Keys are written as they are, so they must need no escaping. */
  predicate PlainKey(key: string) {
    forall i :: 0 <= i < |key| ==> key[i] >= ' ' && key[i] != '\"' && key[i] != '\\'
  }

  lemma {:induction false} PlainStaysPlain(key: string)
    requires PlainKey(key)
    ensures JsonEscape(key) == key
  {
    if key != "" {
      PlainStaysPlain(key[1..]);
      assert EscapeChar(key[0]) == [key[0]] && [key[0]] + key[1..] == key;
    }
  }

  predicate Writable(j: Json) {
    match j
    case Arr(items) => forall i :: 0 <= i < |items| ==> Writable(items[i])
    case Obj(fields) => forall i :: 0 <= i < |fields| ==> PlainKey(fields[i].0) && Writable(fields[i].1)
    case _ => true
  }

  predicate NoDigitNext(rest: string) {
    rest == "" || !IsDigit(rest[0])
  }

  lemma NumberReadsBack(n: int, rest: string)
    requires NoDigitNext(rest)
    ensures IntText(n) != "" && (IntText(n)[0] == '-' || IsDigit(IntText(n)[0]))
    ensures ReadNumber(IntText(n) + rest) == Some((Num(n), rest))
  {
    var m := if n < 0 then -n else n;
    DigitsStart(m);
    ScanDigits(m, rest);
    assert n < 0 ==> (IntText(n) + rest)[1..] == Digits(m) + rest;
  }

  lemma TextReadsBack(text: string, rest: string)
    ensures ReadValue(Print(Str(text)) + rest) == Some((Str(text), rest))
  {
    var s := Print(Str(text)) + rest;
    assert s[1..] == JsonEscape(text) + "\"" + rest;
    EscapeReadsBack(text, rest);
  }

  lemma FlagReadsBack(b: bool, rest: string)
    ensures ReadValue(Print(Flag(b)) + rest) == Some((Flag(b), rest))
  {
    var s := Print(Flag(b)) + rest;
    if b {
      assert s[..4] == "true" && s[4..] == rest;
    } else {
      assert s[..5] == "false" && s[5..] == rest;
    }
  }

  lemma NumReadsBack(n: int, rest: string)
    requires NoDigitNext(rest)
    ensures ReadValue(Print(Num(n)) + rest) == Some((Num(n), rest))
  {
    NumberReadsBack(n, rest);
    var s := IntText(n) + rest;
    assert s[0] == IntText(n)[0];
  }

  function PrintItems(items: seq<Json>): string {
    if items == [] then ""
    else if |items| == 1 then Print(items[0])
    else Print(items[0]) + "," + PrintItems(items[1..])
  }

  function PrintFields(fields: seq<(string, Json)>): string {
    if fields == [] then ""
    else if |fields| == 1 then Plain(fields[0].0, Print(fields[0].1))
    else Plain(fields[0].0, Print(fields[0].1)) + "," + PrintFields(fields[1..])
  }

  lemma {:induction false} ItemsPrint(items: seq<Json>)
    ensures Commas(seq(|items|, i requires 0 <= i < |items| => Print(items[i]))) == PrintItems(items)
    decreases |items|
  {
    var texts := seq(|items|, i requires 0 <= i < |items| => Print(items[i]));
    if |items| > 1 {
      ItemsPrint(items[1..]);
      assert texts[1..] == seq(|items[1..]|, i requires 0 <= i < |items[1..]| => Print(items[1..][i]));
    }
  }

  lemma {:induction false} FieldsPrint(fields: seq<(string, Json)>)
    ensures Commas(seq(|fields|, i requires 0 <= i < |fields| => Plain(fields[i].0, Print(fields[i].1))))
      == PrintFields(fields)
    decreases |fields|
  {
    var texts := seq(|fields|, i requires 0 <= i < |fields| => Plain(fields[i].0, Print(fields[i].1)));
    if |fields| > 1 {
      FieldsPrint(fields[1..]);
      var more := fields[1..];
      assert texts[1..] == seq(|more|, i requires 0 <= i < |more| => Plain(more[i].0, Print(more[i].1)));
    }
  }

  lemma FirstCharacter(j: Json)
    ensures Print(j) != "" && Print(j)[0] != ']' && Print(j)[0] != '}'
  {
    if j.Num? {
      DigitsStart(if j.n < 0 then -j.n else j.n);
    }
  }

  lemma LastItem(s: string, item: Json, after: string, rest: string)
    requires ReadValue(s) == Some((item, after)) && after == "]" + rest
    ensures ReadItems(s) == Some(([item], rest))
  {
    assert after[1..] == rest;
  }

  lemma OneMoreItem(s: string, item: Json, after: string, later: string, items: seq<Json>, rest: string)
    requires ReadValue(s) == Some((item, after)) && after == "," + later
    requires ReadItems(later) == Some((items, rest))
    ensures ReadItems(s) == Some(([item] + items, rest))
  {
    assert after[1..] == later;
  }

  lemma LastField(s: string, key: string, value: Json, middle: string, after: string, rest: string)
    requires s != "" && s[0] == '\"' && ReadJsonString(s[1..]) == Some((key, ":" + middle))
    requires ReadValue(middle) == Some((value, after)) && after == "}" + rest
    ensures ReadFields(s) == Some(([(key, value)], rest))
  {
    assert (":" + middle)[1..] == middle && after[1..] == rest;
  }

  lemma OneMoreField(s: string, key: string, value: Json, middle: string, after: string, later: string,
                     fields: seq<(string, Json)>, rest: string)
    requires s != "" && s[0] == '\"' && ReadJsonString(s[1..]) == Some((key, ":" + middle))
    requires ReadValue(middle) == Some((value, after)) && after == "," + later
    requires ReadFields(later) == Some((fields, rest))
    ensures ReadFields(s) == Some(([(key, value)] + fields, rest))
  {
    assert (":" + middle)[1..] == middle && after[1..] == later;
  }

  lemma WholeArray(s: string, inside: string, items: seq<Json>, rest: string)
    requires s == "[" + inside && inside != "" && inside[0] != ']' && ReadItems(inside) == Some((items, rest))
    ensures ReadValue(s) == Some((Arr(items), rest))
  {
    assert s[1..] == inside && s[1] == inside[0];
  }

  lemma WholeObject(s: string, inside: string, fields: seq<(string, Json)>, rest: string)
    requires s == "{" + inside && inside != "" && inside[0] != '}' && ReadFields(inside) == Some((fields, rest))
    ensures ReadValue(s) == Some((Obj(fields), rest))
  {
    assert s[1..] == inside && s[1] == inside[0];
  }

  lemma NothingInside(rest: string)
    ensures ReadValue("[]" + rest) == Some((Arr([]), rest))
    ensures ReadValue("{}" + rest) == Some((Obj([]), rest))
  {
    assert ("[]" + rest)[..2] == "[]" && ("[]" + rest)[2..] == rest;
    assert ("{}" + rest)[..2] == "{}" && ("{}" + rest)[2..] == rest;
  }

  /** Whatever is written reads back as itself, with anything but a digit after it. */
  lemma {:induction false} PrintReadsBack(j: Json, rest: string)
    requires Writable(j) && NoDigitNext(rest)
    ensures ReadValue(Print(j) + rest) == Some((j, rest))
    decreases j, 1
  {
    match j
    case Str(text) => TextReadsBack(text, rest);
    case Num(n) => NumReadsBack(n, rest);
    case Flag(b) => FlagReadsBack(b, rest);
    case Arr(items) => ArrayReadsBack(j, rest);
    case Obj(fields) => ObjectReadsBack(j, rest);
  }

  lemma {:induction false} ArrayReadsBack(j: Json, rest: string)
    requires Writable(j) && j.Arr? && NoDigitNext(rest)
    ensures ReadValue(Print(j) + rest) == Some((j, rest))
    decreases j, 0, |j.items| + 1
  {
    ItemsPrint(j.items);
    if j.items == [] {
      NothingInside(rest);
      assert Print(j) == "[]";
    } else {
      var inside := PrintItems(j.items) + "]" + rest;
      ItemsReadBack(j, j.items, rest);
      FirstCharacter(j.items[0]);
      assert Print(j) + rest == "[" + inside && inside[0] == Print(j.items[0])[0];
      WholeArray(Print(j) + rest, inside, j.items, rest);
    }
  }

  lemma {:induction false} ObjectReadsBack(j: Json, rest: string)
    requires Writable(j) && j.Obj? && NoDigitNext(rest)
    ensures ReadValue(Print(j) + rest) == Some((j, rest))
    decreases j, 0, |j.fields| + 1
  {
    FieldsPrint(j.fields);
    if j.fields == [] {
      NothingInside(rest);
      assert Print(j) == "{}";
    } else {
      var inside := PrintFields(j.fields) + "}" + rest;
      FieldsReadBack(j, j.fields, rest);
      assert Print(j) + rest == "{" + inside && inside[0] == '\"';
      WholeObject(Print(j) + rest, inside, j.fields, rest);
    }
  }

  lemma ItemsSplit(items: seq<Json>, rest: string)
    requires items != []
    ensures PrintItems(items) + "]" + rest
      == Print(items[0]) + if |items| == 1 then "]" + rest else "," + (PrintItems(items[1..]) + "]" + rest)
  {
  }

  lemma {:induction false} ItemsReadBack(j: Json, items: seq<Json>, rest: string)
    requires j.Arr? && items != [] && (forall i :: 0 <= i < |items| ==> Writable(items[i]) && items[i] < j)
    ensures ReadItems(PrintItems(items) + "]" + rest) == Some((items, rest))
    decreases j, 0, |items|
  {
    ItemsSplit(items, rest);
    var s := PrintItems(items) + "]" + rest;
    if |items| == 1 {
      var after := "]" + rest;
      PrintReadsBack(items[0], after);
      LastItem(s, items[0], after, rest);
      assert [items[0]] == items;
    } else {
      var later := PrintItems(items[1..]) + "]" + rest;
      var after := "," + later;
      PrintReadsBack(items[0], after);
      ItemsReadBack(j, items[1..], rest);
      OneMoreItem(s, items[0], after, later, items[1..], rest);
      assert [items[0]] + items[1..] == items;
    }
  }

  lemma KeyReadsBack(key: string, value: string)
    requires PlainKey(key)
    ensures var s := Plain(key, value);
      s != "" && s[0] == '\"' && ReadJsonString(s[1..]) == Some((key, ":" + value))
  {
    PlainStaysPlain(key);
    assert Plain(key, value)[1..] == JsonEscape(key) + "\"" + (":" + value);
    EscapeReadsBack(key, ":" + value);
  }

  lemma PlainMore(key: string, value: string, more: string)
    ensures Plain(key, value) + more == Plain(key, value + more)
  {
    var head := "\"" + key + "\":";
    assert Plain(key, value) == head + value && Plain(key, value + more) == head + (value + more);
  }

  lemma Regrouped(first: string, later: string, rest: string)
    ensures first + "}" + rest == first + ("}" + rest)
    ensures first + "," + later + "}" + rest == first + ("," + (later + "}" + rest))
  {
    assert "," + (later + "}" + rest) == "," + later + "}" + rest;
  }

  lemma FieldsSplit(fields: seq<(string, Json)>, rest: string)
    requires fields != []
    ensures PrintFields(fields) + "}" + rest
      == Plain(fields[0].0, Print(fields[0].1)
                            + if |fields| == 1 then "}" + rest else "," + (PrintFields(fields[1..]) + "}" + rest))
  {
    var key, text := fields[0].0, Print(fields[0].1);
    if |fields| == 1 {
      Regrouped(Plain(key, text), "", rest);
      PlainMore(key, text, "}" + rest);
    } else {
      var later := PrintFields(fields[1..]);
      Regrouped(Plain(key, text), later, rest);
      PlainMore(key, text, "," + (later + "}" + rest));
    }
  }

  lemma {:induction false} FieldsReadBack(j: Json, fields: seq<(string, Json)>, rest: string)
    requires j.Obj? && fields != []
    requires forall i :: 0 <= i < |fields| ==>
      PlainKey(fields[i].0) && Writable(fields[i].1) && fields[i].1 < j
    ensures ReadFields(PrintFields(fields) + "}" + rest) == Some((fields, rest))
    decreases j, 0, |fields|
  {
    FieldsSplit(fields, rest);
    var s := PrintFields(fields) + "}" + rest;
    var key, value := fields[0].0, fields[0].1;
    if |fields| == 1 {
      var after := "}" + rest;
      var middle := Print(value) + after;
      PrintReadsBack(value, after);
      KeyReadsBack(key, middle);
      LastField(s, key, value, middle, after, rest);
      assert [(key, value)] == fields;
    } else {
      var later := PrintFields(fields[1..]) + "}" + rest;
      var after := "," + later;
      var middle := Print(value) + after;
      PrintReadsBack(value, after);
      KeyReadsBack(key, middle);
      FieldsReadBack(j, fields[1..], rest);
      OneMoreField(s, key, value, middle, after, later, fields[1..], rest);
      assert [(key, value)] + fields[1..] == fields;
    }
  }

  // ------------------------------------------------------------------ the hub's events

  function PlayerValue(p: Core.Player): Json {
    Obj([("player_id", Str(p.id)), ("hp", Num(p.hp)), ("connected", Flag(p.joined)), ("online", Flag(p.online))])
  }

  function PlayerValues(players: seq<Core.Player>): seq<Json> {
    seq(|players|, i requires 0 <= i < |players| => PlayerValue(players[i]))
  }

  function RoomValue(s: Core.Snapshot): Json {
    Obj([("room_id", Str(s.roomId)), ("match_id", Str(s.matchId)), ("state", Str(Store.PhaseText(s.phase))),
         ("frame", Num(s.frame)), ("players", Arr(PlayerValues(s.players))),
         ("finish_reason", Str(Store.ReasonText(s.reason))), ("winner_id", Str(s.winner)),
         ("started_at_ms", Num(s.startedAt)), ("finished_at_ms", Num(s.finishedAt))])
  }

  function EnvelopeValue(kind: string, sequence: int, now: int, payload: Json): Json {
    Obj([("version", Num(1)), ("type", Str(kind)), ("sequence", Num(sequence)), ("timestamp_ms", Num(now)),
         ("payload", payload)])
  }

  function ResetValue(reason: ResetReason, s: Core.Snapshot): Json {
    Obj([("reason", Str(ResetText(reason))), ("room", RoomValue(s))])
  }

  function ReadyValue(player: string, room: string, now: int): Json {
    Obj([("player_id", Str(player)), ("room_id", Str(room)), ("server_time_ms", Num(now))])
  }

  lemma RoomKeysArePlain()
    ensures PlainKey("room_id") && PlainKey("match_id") && PlainKey("state") && PlainKey("frame")
    ensures PlainKey("players") && PlainKey("finish_reason") && PlainKey("winner_id")
    ensures PlainKey("started_at_ms") && PlainKey("finished_at_ms")
  {
  }

  lemma OtherKeysArePlain()
    ensures PlainKey("player_id") && PlainKey("hp") && PlainKey("connected") && PlainKey("online")
    ensures PlainKey("version") && PlainKey("type") && PlainKey("sequence") && PlainKey("timestamp_ms")
    ensures PlainKey("payload") && PlainKey("reason") && PlainKey("room") && PlainKey("server_time_ms")
  {
  }

  lemma QuotedIsText(key: string, value: string)
    ensures Quoted(key, value) == Plain(key, Print(Str(value)))
  {
  }

  /** An object whose fields are printed one by one. */
  lemma ObjectPrints(fields: seq<(string, Json)>, texts: seq<string>)
    requires |texts| == |fields|
    requires forall i :: 0 <= i < |texts| ==> texts[i] == Plain(fields[i].0, Print(fields[i].1))
    ensures Print(Obj(fields)) == Object(texts)
  {
    assert texts == seq(|fields|, i requires 0 <= i < |fields| => Plain(fields[i].0, Print(fields[i].1)));
  }

  lemma PlayerPrints(p: Core.Player)
    ensures Print(PlayerValue(p)) == PlayerJson(p) && Writable(PlayerValue(p))
  {
    OtherKeysArePlain();
    QuotedIsText("player_id", p.id);
    ObjectPrints(PlayerValue(p).fields,
                 [Quoted("player_id", p.id), Plain("hp", IntText(p.hp)), Plain("connected", Bool(p.joined)),
                  Plain("online", Bool(p.online))]);
  }

  lemma PlayersPrint(players: seq<Core.Player>)
    ensures Print(Arr(PlayerValues(players))) == "[" + Commas(PlayerList(players)) + "]"
    ensures Writable(Arr(PlayerValues(players)))
  {
    var items := PlayerValues(players);
    forall i | 0 <= i < |players| ensures Print(items[i]) == PlayerList(players)[i] && Writable(items[i]) {
      PlayerPrints(players[i]);
    }
    assert PlayerList(players) == seq(|items|, i requires 0 <= i < |items| => Print(items[i]));
  }

  lemma RoomPrints(s: Core.Snapshot)
    ensures Print(RoomValue(s)) == RoomPayload(s) && Writable(RoomValue(s))
  {
    RoomKeysArePlain();
    PlayersPrint(s.players);
    QuotedIsText("room_id", s.roomId);
    QuotedIsText("match_id", s.matchId);
    QuotedIsText("state", Store.PhaseText(s.phase));
    QuotedIsText("finish_reason", Store.ReasonText(s.reason));
    QuotedIsText("winner_id", s.winner);
    ObjectPrints(RoomValue(s).fields, RoomIdentity(s) + RoomEnding(s));
  }

  lemma EnvelopePrints(kind: string, sequence: int, now: int, payload: Json)
    requires Writable(payload) && PlainKey(kind)
    ensures var v := EnvelopeValue(kind, sequence, now, payload);
      Print(v) == Envelope(kind, sequence, now, Print(payload)) && Writable(v)
  {
    OtherKeysArePlain();
    PlainStaysPlain(kind);
    assert IntText(1) == "1";
    ObjectPrints(EnvelopeValue(kind, sequence, now, payload).fields,
                 [Plain("version", "1"), Plain("type", "\"" + kind + "\""), Plain("sequence", IntText(sequence)),
                  Plain("timestamp_ms", IntText(now)), Plain("payload", Print(payload))]);
  }

  lemma ResetPrints(reason: ResetReason, s: Core.Snapshot)
    ensures Print(ResetValue(reason, s)) == ResetPayload(reason, s) && Writable(ResetValue(reason, s))
  {
    OtherKeysArePlain();
    RoomPrints(s);
    QuotedIsText("reason", ResetText(reason));
    ObjectPrints(ResetValue(reason, s).fields, [Quoted("reason", ResetText(reason)), Plain("room", RoomPayload(s))]);
  }

  lemma ReadyPrints(player: string, room: string, now: int)
    ensures Print(ReadyValue(player, room, now)) == ReadyPayload(player, room, now)
    ensures Writable(ReadyValue(player, room, now))
  {
    OtherKeysArePlain();
    RoomKeysArePlain();
    QuotedIsText("player_id", player);
    QuotedIsText("room_id", room);
    ObjectPrints(ReadyValue(player, room, now).fields,
                 [Quoted("player_id", player), Quoted("room_id", room), Plain("server_time_ms", IntText(now))]);
  }

  lemma KindsArePlain()
    ensures PlainKey("room.state") && PlainKey("room.finished") && PlainKey("stream.reset") && PlainKey("session.ready")
  {
  }

  // ------------------------------------------------------------------ what the client finds in them

  /** The value under a key. */
  function Get(j: Json, key: string): Option<Json>
    decreases if j.Obj? then |j.fields| else 0
  {
    if !j.Obj? || j.fields == [] then None
    else if j.fields[0].0 == key then Some(j.fields[0].1)
    else Get(Obj(j.fields[1..]), key)
  }

  /** The whole text is one value. */
  ghost predicate Reads(text: string, j: Json) {
    ReadValue(text) == Some((j, ""))
  }

  ghost predicate IsPlayer(j: Json, p: Core.Player) {
    && Get(j, "player_id") == Some(Str(p.id)) && Get(j, "hp") == Some(Num(p.hp))
    && Get(j, "connected") == Some(Flag(p.joined)) && Get(j, "online") == Some(Flag(p.online))
  }

  ghost predicate IsPhase(text: string, phase: Core.Phase) {
    match phase
    case Created => text == "created"
    case Waiting => text == "waiting"
    case Playing => text == "playing"
    case Finishing => text == "finishing"
    case Finished => text == "finished"
    case Aborted => text == "aborted"
  }

  ghost predicate IsReason(text: string, reason: Core.Reason) {
    match reason
    case NoReason => text == "none"
    case HpZero => text == "hp_zero"
    case TimeUp => text == "timeout"
    case Scrapped => text == "aborted"
    case Disconnect => text == "disconnect"
  }

  /** Field by field, the value is this state of a room. */
  ghost predicate IsRoom(j: Json, s: Core.Snapshot) {
    && Get(j, "room_id") == Some(Str(s.roomId)) && Get(j, "match_id") == Some(Str(s.matchId))
    && Get(j, "frame") == Some(Num(s.frame)) && Get(j, "winner_id") == Some(Str(s.winner))
    && Get(j, "started_at_ms") == Some(Num(s.startedAt)) && Get(j, "finished_at_ms") == Some(Num(s.finishedAt))
    && (exists state :: Get(j, "state") == Some(Str(state)) && IsPhase(state, s.phase))
    && (exists why :: Get(j, "finish_reason") == Some(Str(why)) && IsReason(why, s.reason))
    && exists items :: Get(j, "players") == Some(Arr(items)) && |items| == |s.players|
                       && forall i :: 0 <= i < |items| ==> IsPlayer(items[i], s.players[i])
  }

  lemma {:induction false} GetAt(fields: seq<(string, Json)>, i: nat)
    requires i < |fields| && forall k :: 0 <= k < i ==> fields[k].0 != fields[i].0
    ensures Get(Obj(fields), fields[i].0) == Some(fields[i].1)
    decreases |fields|
  {
    if i > 0 {
      GetAt(fields[1..], i - 1);
    }
  }

  predicate DistinctKeys(fields: seq<(string, Json)>) {
    forall i, k :: 0 <= k < i < |fields| ==> fields[k].0 != fields[i].0
  }

  lemma GetEach(fields: seq<(string, Json)>)
    requires DistinctKeys(fields)
    ensures forall i :: 0 <= i < |fields| ==> Get(Obj(fields), fields[i].0) == Some(fields[i].1)
  {
    forall i | 0 <= i < |fields| ensures Get(Obj(fields), fields[i].0) == Some(fields[i].1) {
      GetAt(fields, i);
    }
  }

  lemma PlayerFields(p: Core.Player)
    ensures IsPlayer(PlayerValue(p), p)
  {
    var fields := PlayerValue(p).fields;
    GetEach(fields);
    assert fields[0].0 == "player_id" && fields[1].0 == "hp" && fields[2].0 == "connected" && fields[3].0 == "online";
  }

  lemma RoomFields(s: Core.Snapshot)
    ensures IsRoom(RoomValue(s), s)
  {
    var fields := RoomValue(s).fields;
    assert DistinctKeys(fields);
    GetEach(fields);
    assert fields[0].0 == "room_id" && fields[1].0 == "match_id" && fields[2].0 == "state" && fields[3].0 == "frame";
    assert fields[4].0 == "players" && fields[5].0 == "finish_reason" && fields[6].0 == "winner_id";
    assert fields[7].0 == "started_at_ms" && fields[8].0 == "finished_at_ms";
    var items := PlayerValues(s.players);
    forall i | 0 <= i < |items| ensures IsPlayer(items[i], s.players[i]) {
      PlayerFields(s.players[i]);
    }
    assert IsPhase(Store.PhaseText(s.phase), s.phase) && IsReason(Store.ReasonText(s.reason), s.reason);
  }

  lemma ValueReads(text: string, j: Json)
    requires text == Print(j) && Writable(j)
    ensures Reads(text, j)
  {
    PrintReadsBack(j, "");
    assert text + "" == text;
  }

  /** The data of an event is an envelope of this kind, number and moment around a payload. */
  ghost predicate IsEnvelope(text: string, kind: string, sequence: int, now: int, payload: Json) {
    exists j :: Reads(text, j)
      && Get(j, "version") == Some(Num(1)) && Get(j, "type") == Some(Str(kind))
      && Get(j, "sequence") == Some(Num(sequence)) && Get(j, "timestamp_ms") == Some(Num(now))
      && Get(j, "payload") == Some(payload)
  }

  lemma EnvelopeReads(kind: string, sequence: int, now: int, payload: Json)
    requires Writable(payload) && PlainKey(kind)
    ensures IsEnvelope(Envelope(kind, sequence, now, Print(payload)), kind, sequence, now, payload)
  {
    var v := EnvelopeValue(kind, sequence, now, payload);
    EnvelopePrints(kind, sequence, now, payload);
    ValueReads(Envelope(kind, sequence, now, Print(payload)), v);
    var fields := v.fields;
    GetEach(fields);
    assert fields[0].0 == "version" && fields[1].0 == "type" && fields[2].0 == "sequence";
    assert fields[3].0 == "timestamp_ms" && fields[4].0 == "payload";
  }

  /** The text of a pushed state is an event of the right kind, numbered by its frame, whose data reads as
      JSON with every field of the room. */
  lemma StateReachesTheClient(s: Core.Snapshot, now: int)
    ensures var m := MessageOf(StateSent(s), now);
      && m.Event? && m.id == (if s.frame >= 0 then Some(s.frame) else None)
      && m.name == (if s.phase.Finished? || s.phase.Aborted? then "room.finished" else "room.state")
      && exists room :: IsEnvelope(m.data, m.name, s.frame, now, room) && IsRoom(room, s)
  {
    KindsArePlain();
    RoomPrints(s);
    RoomFields(s);
    EnvelopeReads(MessageOf(StateSent(s), now).name, s.frame, now, RoomValue(s));
  }

  ghost predicate IsReset(payload: Json, reason: ResetReason, s: Core.Snapshot) {
    && (exists room :: Get(payload, "room") == Some(room) && IsRoom(room, s))
    && Get(payload, "reason") == Some(Str(
         match reason
         case IdMalformed => "id_malformed"
         case IdAhead => "id_ahead"
         case IdOutOfWindow => "id_out_of_window"
         case IdCurrent => "id_current"))
  }

  lemma ResetFields(reason: ResetReason, s: Core.Snapshot)
    ensures IsReset(ResetValue(reason, s), reason, s)
  {
    RoomFields(s);
    var fields := ResetValue(reason, s).fields;
    GetEach(fields);
    assert fields[0].0 == "reason" && fields[1].0 == "room";
  }

  /** A reset says why, and carries the room's state to start over from. */
  lemma ResetReachesTheClient(reason: ResetReason, s: Core.Snapshot, now: int)
    ensures var m := MessageOf(ResetSent(reason, s), now);
      && m.Event? && m.name == "stream.reset" && m.id == (if s.frame >= 0 then Some(s.frame) else None)
      && exists payload :: IsEnvelope(m.data, m.name, s.frame, now, payload) && IsReset(payload, reason, s)
  {
    KindsArePlain();
    ResetPrints(reason, s);
    ResetFields(reason, s);
    EnvelopeReads("stream.reset", s.frame, now, ResetValue(reason, s));
  }

  lemma ReadyReachesTheClient(player: string, room: string, now: int)
    ensures var m := MessageOf(ReadySent(player, room), now);
      && m.Event? && m.name == "session.ready" && m.id.None?
      && exists payload :: IsEnvelope(m.data, m.name, 0, now, payload)
           && Get(payload, "player_id") == Some(Str(player)) && Get(payload, "room_id") == Some(Str(room))
           && Get(payload, "server_time_ms") == Some(Num(now))
  {
    KindsArePlain();
    ReadyPrints(player, room, now);
    EnvelopeReads("session.ready", 0, now, ReadyValue(player, room, now));
    var fields := ReadyValue(player, room, now).fields;
    GetEach(fields);
    assert fields[0].0 == "player_id" && fields[1].0 == "room_id" && fields[2].0 == "server_time_ms";
  }
}
