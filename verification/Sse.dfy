/** Server-sent events: the text the gateway writes and the browser's incremental reader
    (section 9.2 of the WHATWG HTML Standard). Text is a sequence of characters. */
module Sse {
  import opened Wrappers
  import opened Decimals

  // ------------------------------------------------------------------ printing

  datatype Message = Event(name: string, data: string, id: Option<nat>) | Heartbeat

  function IdLine(id: Option<nat>): string {
    match id
    case Some(n) => "id: " + Digits(n) + "\n"
    case None => ""
  }

  /** A message without the blank line that ends it. */
  function Block(m: Message): string {
    match m
    case Event(name, data, id) => IdLine(id) + ("event: " + name + "\n" + ("data: " + data))
    case Heartbeat => ": ping"
  }

  function Print(m: Message): string {
    Block(m) + "\n\n"
  }

  function PrintAll(ms: seq<Message>): string {
    if ms == [] then "" else Print(ms[0]) + PrintAll(ms[1..])
  }

  predicate NoLf(s: string) {
    '\n' !in s
  }

  predicate OneLine(s: string) {
    '\n' !in s && '\r' !in s
  }

  predicate Printable(m: Message) {
    m.Event? ==> OneLine(m.name) && OneLine(m.data)
  }

  // ------------------------------------------------------------------ one block

  function IndexOf(s: string, c: char): (r: Option<nat>)
    ensures r.Some? ==> r.value < |s| && s[r.value] == c
    ensures r.None? ==> c !in s
  {
    if s == [] then None
    else if s[0] == c then Some(0)
    else match IndexOf(s[1..], c)
      case None => None
      case Some(i) => Some(i + 1)
  }

  /** `split('\n')`: never empty. */
  function SplitLines(s: string): seq<string>
    decreases |s|
  {
    match IndexOf(s, '\n')
    case None => [s]
    case Some(i) => [s[..i]] + SplitLines(s[i + 1..])
  }

  function JoinLines(lines: seq<string>): string {
    if lines == [] then "" else if |lines| == 1 then lines[0] else lines[0] + "\n" + JoinLines(lines[1..])
  }

  predicate IsSpace(c: char) {
    c == ' ' || ('\t' <= c <= '\r') || c == '\U{a0}' || c == '\U{feff}'
  }

  function SkipSpace(s: string): string {
    if s != [] && IsSpace(s[0]) then SkipSpace(s[1..]) else s
  }

  /** `Number.parseInt(value, 10)`: leading space, a sign, then as many digits as there are. */
  function ParseInt(value: string): Option<int> {
    var s := SkipSpace(value);
    var negative := s != [] && s[0] == '-';
    match ScanNat(if s != [] && (s[0] == '-' || s[0] == '+') then s[1..] else s, 0, false)
    case None => None
    case Some((n, _)) => Some(Signed(negative, n))
  }

  /** What the application gets. */
  datatype Delivery = Delivery(event: string, data: string, id: Option<nat>)

  /** The fields seen so far in a block. */
  datatype Fields = Fields(event: string, data: seq<string>, id: Option<nat>)

  function WithoutCr(line: string): string {
    if line != [] && line[|line| - 1] == '\r' then line[..|line| - 1] else line
  }

  function WithoutSpace(value: string): string {
    if value != [] && value[0] == ' ' then value[1..] else value
  }

  function SetField(f: Fields, field: string, value: string): Fields {
    if field == "event" then f.(event := value)
    else if field == "data" then f.(data := f.data + [value])
    else if field == "id" then
      match ParseInt(value)
      case None => f
      case Some(n) => if n >= 0 then f.(id := Some(n)) else f
    else f
  }

  /** A line's field name and value. */
  function SplitField(line: string): (string, string) {
    match IndexOf(line, ':')
    case None => (line, "")
    case Some(colon) => (line[..colon], WithoutSpace(line[colon + 1..]))
  }

  /** One line: nothing for an empty line or a comment, otherwise a field with or without a value. */
  function AddLine(f: Fields, rawLine: string): Fields {
    var line := WithoutCr(rawLine);
    if line == "" || line[0] == ':' then f
    else SetField(f, SplitField(line).0, SplitField(line).1)
  }

  function AddLines(f: Fields, lines: seq<string>): Fields
    decreases |lines|
  {
    if lines == [] then f else AddLines(AddLine(f, lines[0]), lines[1..])
  }

  function Deliver(f: Fields): Option<Delivery> {
    if f.data == [] then None else Some(Delivery(f.event, JoinLines(f.data), f.id))
  }

  function BlockValue(block: string): Option<Delivery> {
    Deliver(AddLines(Fields("message", [], None), SplitLines(block)))
  }

  method ParseSseBlock(block: string) returns (event: Option<Delivery>)
    ensures event == BlockValue(block)
  {
    var f := Fields("message", [], None);
    var lines := SplitLines(block);
    var i := 0;
    while i < |lines|
      invariant 0 <= i <= |lines|
      invariant AddLines(f, lines[i..]) == AddLines(Fields("message", [], None), lines)
    {
      assert lines[i..][1..] == lines[i + 1..];
      f := ReadLine(f, lines[i]);
      i := i + 1;
    }
    if f.data == [] {
      return None;
    }
    return Some(Delivery(f.event, JoinLines(f.data), f.id));
  }

  /** The body of the loop over lines. */
  method ReadLine(before: Fields, rawLine: string) returns (f: Fields)
    ensures f == AddLine(before, rawLine)
  {
    f := before;
    var line := if rawLine != "" && rawLine[|rawLine| - 1] == '\r' then rawLine[..|rawLine| - 1] else rawLine;
    if line == "" || line[0] == ':' {
      return;
    }
    var colon := IndexOf(line, ':');
    var field := if colon.None? then line else line[..colon.value];
    var value := if colon.None? then "" else line[colon.value + 1..];
    if value != "" && value[0] == ' ' {
      value := value[1..];
    }
    f := SetField(f, field, value);
  }

  // ------------------------------------------------------------------ the reading loop

  /** Where the first blank line starts: `indexOf('\n\n')`. */
  function BlankAt(s: string): (r: Option<nat>)
    ensures r.Some? ==> r.value + 2 <= |s|
  {
    if |s| < 2 then None
    else if s[0] == '\n' && s[1] == '\n' then Some(0)
    else match BlankAt(s[1..])
      case None => None
      case Some(i) => Some(i + 1)
  }

  function OptSeq(e: Option<Delivery>): seq<Delivery> {
    match e
    case None => []
    case Some(d) => [d]
  }

  /** What complete blocks deliver, and the text left after them. */
  function Drain(buffer: string): (seq<Delivery>, string)
    decreases |buffer|
  {
    match BlankAt(buffer)
    case None => ([], buffer)
    case Some(i) =>
      var (later, rest) := Drain(buffer[i + 2..]);
      (OptSeq(BlockValue(buffer[..i])) + later, rest)
  }

  /** `replace(/\r\n/g, '\n')`. */
  function Normalized(chunk: string): string {
    if chunk == [] then ""
    else if |chunk| >= 2 && chunk[0] == '\r' && chunk[1] == '\n' then "\n" + Normalized(chunk[2..])
    else [chunk[0]] + Normalized(chunk[1..])
  }

  function NormalizedAll(chunks: seq<string>): string {
    if chunks == [] then "" else NormalizedAll(chunks[..|chunks| - 1]) + Normalized(chunks[|chunks| - 1])
  }

  /** The loop of the client: append a chunk, take out every complete block, keep the rest. */
  method ReadStream(chunks: seq<string>) returns (events: seq<Delivery>, buffer: string)
    ensures (events, buffer) == Drain(NormalizedAll(chunks))
  {
    events, buffer := [], "";
    var i := 0;
    assert chunks[..0] == [];
    while i < |chunks|
      invariant 0 <= i <= |chunks|
      invariant (events, buffer) == Drain(NormalizedAll(chunks[..i]))
    {
      assert chunks[..i + 1][..i] == chunks[..i];
      DrainAppend(NormalizedAll(chunks[..i]), Normalized(chunks[i]));
      events, buffer := TakeBlocks(events, buffer + Normalized(chunks[i]));
      i := i + 1;
    }
    assert chunks[..i] == chunks;
  }

  method TakeBlocks(before: seq<Delivery>, text: string) returns (events: seq<Delivery>, buffer: string)
    ensures events == before + Drain(text).0 && buffer == Drain(text).1
  {
    events, buffer := before, text;
    var separator := BlankAt(buffer);
    assert before + Drain(text).0 == events + Drain(buffer).0;
    while separator.Some?
      invariant separator == BlankAt(buffer)
      invariant events + Drain(buffer).0 == before + Drain(text).0 && Drain(buffer).1 == Drain(text).1
      decreases |buffer|
    {
      var block := buffer[..separator.value];
      Regroup(events, OptSeq(BlockValue(block)), Drain(buffer[separator.value + 2..]).0);
      buffer := buffer[separator.value + 2..];
      var event := ParseSseBlock(block);
      events := events + OptSeq(event);
      separator := BlankAt(buffer);
    }
    assert events + [] == events;
  }

  lemma Regroup<T>(a: seq<T>, b: seq<T>, c: seq<T>)
    ensures a + (b + c) == a + b + c
  {
  }

  // ------------------------------------------------------------------ cutting does not matter

  lemma {:induction false} BlankAtAppend(a: string, b: string)
    requires BlankAt(a).Some?
    ensures BlankAt(a + b) == BlankAt(a)
  {
    if !(a[0] == '\n' && a[1] == '\n') {
      BlankAtAppend(a[1..], b);
      assert (a + b)[1..] == a[1..] + b;
    }
  }

  /** Reading a text in two pieces delivers what reading it at once delivers. */
  lemma {:induction false} DrainAppend(a: string, b: string)
    ensures var (events, rest) := Drain(a);
      Drain(a + b) == (events + Drain(rest + b).0, Drain(rest + b).1)
    decreases |a|
  {
    match BlankAt(a)
    case None => assert [] + Drain(a + b).0 == Drain(a + b).0;
    case Some(i) =>
      BlankAtAppend(a, b);
      assert (a + b)[..i] == a[..i] && (a + b)[i + 2..] == a[i + 2..] + b;
      DrainAppend(a[i + 2..], b);
      var (later, rest) := Drain(a[i + 2..]);
      Regroup(OptSeq(BlockValue(a[..i])), later, Drain(rest + b).0);
  }

  lemma {:induction false} NormalizedPlain(chunk: string)
    requires '\r' !in chunk
    ensures Normalized(chunk) == chunk
  {
    if chunk != [] {
      NormalizedPlain(chunk[1..]);
    }
  }

  function Concat(chunks: seq<string>): string {
    if chunks == [] then "" else Concat(chunks[..|chunks| - 1]) + chunks[|chunks| - 1]
  }

  lemma {:induction false} NormalizedAllPlain(chunks: seq<string>)
    requires '\r' !in Concat(chunks)
    ensures NormalizedAll(chunks) == Concat(chunks)
  {
    if chunks != [] {
      var before, last := chunks[..|chunks| - 1], chunks[|chunks| - 1];
      assert forall c :: c in Concat(before) || c in last ==> c in Concat(before) + last;
      NormalizedAllPlain(before);
      NormalizedPlain(last);
    }
  }

  // ------------------------------------------------------------------ a printed block parses

  lemma {:induction false} IndexAfter(a: string, c: char, b: string)
    requires c !in a
    ensures IndexOf(a + ([c] + b), c) == Some(|a|)
  {
    if a == [] {
      assert a + ([c] + b) == [c] + b;
    } else {
      assert (a + ([c] + b))[1..] == a[1..] + ([c] + b);
      IndexAfter(a[1..], c, b);
    }
  }

  lemma SplitFirstLine(line: string, rest: string)
    requires NoLf(line)
    ensures SplitLines(line + "\n" + rest) == [line] + SplitLines(rest)
  {
    var s := line + "\n" + rest;
    assert s == line + (['\n'] + rest);
    IndexAfter(line, '\n', rest);
    assert s[..|line|] == line && s[|line| + 1..] == rest;
  }

  lemma FieldLineSplits(field: string, value: string)
    requires ':' !in field
    ensures SplitField(field + ": " + value) == (field, value)
  {
    var line := field + ": " + value;
    assert line == field + ([':'] + (" " + value));
    IndexAfter(field, ':', " " + value);
    assert line[..|field|] == field && line[|field| + 1..] == " " + value;
    assert (" " + value)[1..] == value;
  }

  lemma FieldLineHasNoCr(field: string, value: string)
    requires OneLine(field) && OneLine(value)
    ensures OneLine(field + ": " + value) && WithoutCr(field + ": " + value) == field + ": " + value
  {
  }

  lemma AddFieldLine(f: Fields, field: string, value: string)
    requires OneLine(field) && OneLine(value) && field != "" && ':' !in field
    ensures AddLine(f, field + ": " + value) == SetField(f, field, value)
  {
    FieldLineSplits(field, value);
    FieldLineHasNoCr(field, value);
    assert (field + ": " + value)[0] == field[0] && field[0] in field;
  }

  lemma LastTwoLines(f: Fields, first: string, second: string)
    requires NoLf(first) && NoLf(second)
    ensures AddLines(f, SplitLines(first + "\n" + second)) == AddLine(AddLine(f, first), second)
  {
    SplitFirstLine(first, second);
    assert SplitLines(second) == [second];
    assert ([first] + [second])[1..] == [second] && [second][1..] == [];
    assert AddLines(AddLine(f, first), [second]) == AddLine(AddLine(f, first), second);
  }

  lemma LastTwoFields(f: Fields, k1: string, v1: string, k2: string, v2: string)
    requires OneLine(k1) && OneLine(v1) && k1 != "" && ':' !in k1
    requires OneLine(k2) && OneLine(v2) && k2 != "" && ':' !in k2
    ensures AddLines(f, SplitLines(k1 + ": " + v1 + "\n" + (k2 + ": " + v2))) == SetField(SetField(f, k1, v1), k2, v2)
  {
    FieldLineHasNoCr(k1, v1);
    FieldLineHasNoCr(k2, v2);
    LastTwoLines(f, k1 + ": " + v1, k2 + ": " + v2);
    AddFieldLine(f, k1, v1);
    AddFieldLine(SetField(f, k1, v1), k2, v2);
  }

  lemma {:induction false} DigitsOnly(n: nat)
    ensures forall c :: c in Digits(n) ==> IsDigit(c)
  {
    if n >= 10 {
      DigitsOnly(n / 10);
    }
  }

  lemma ParseDigits(n: nat)
    ensures ParseInt(Digits(n)) == Some(n)
  {
    DigitsStart(n);
    ScanDigits(n, "");
    assert Digits(n) + "" == Digits(n);
  }

  /** The fields of an event's own two lines. */
  lemma TwoLines(f: Fields, name: string, data: string)
    requires OneLine(name) && OneLine(data)
    ensures AddLines(f, SplitLines("event: " + name + "\n" + ("data: " + data)))
      == f.(event := name, data := f.data + [data])
  {
    LastTwoFields(f, "event", name, "data", data);
    assert "event" + ": " == "event: " && "data" + ": " == "data: ";
  }

  lemma IdLineAdds(f: Fields, n: nat, rest: string)
    ensures AddLines(f, SplitLines(IdLine(Some(n)) + rest)) == AddLines(f.(id := Some(n)), SplitLines(rest))
  {
    var line := "id: " + Digits(n);
    DigitsOnly(n);
    ParseDigits(n);
    AddFieldLine(f, "id", Digits(n));
    assert "id" + ": " == "id: ";
    SplitFirstLine(line, rest);
    assert ([line] + SplitLines(rest))[1..] == SplitLines(rest);
  }

  lemma BlockParses(m: Message)
    requires Printable(m)
    ensures BlockValue(Block(m)) == Reading(m)
  {
    if m.Heartbeat? {
      assert SplitLines(": ping") == [": ping"];
      assert [": ping"][1..] == [];
    } else {
      EventParses(m.name, m.data, m.id);
    }
  }

  lemma EventParses(name: string, data: string, id: Option<nat>)
    requires OneLine(name) && OneLine(data)
    ensures BlockValue(Block(Event(name, data, id))) == Some(Delivery(name, data, id))
  {
    var f := Fields("message", [], None);
    var two := "event: " + name + "\n" + ("data: " + data);
    assert [] + [data] == [data];
    if id.None? {
      assert IdLine(id) + two == two;
      TwoLines(f, name, data);
    } else {
      IdLineAdds(f, id.value, two);
      TwoLines(f.(id := id), name, data);
    }
  }

  // ------------------------------------------------------------------ any block

  /** A line that is no comment and has this field's name. */
  predicate HasField(raw: string, field: string) {
    var line := WithoutCr(raw);
    line != "" && line[0] != ':' && SplitField(line).0 == field
  }

  /** The values of the lines of a block that have this field. */
  function ValuesOf(lines: seq<string>, field: string): seq<string> {
    if lines == [] then []
    else (if HasField(lines[0], field) then [SplitField(WithoutCr(lines[0])).1] else []) + ValuesOf(lines[1..], field)
  }

  function LastOr(values: seq<string>, none: string): string {
    if values == [] then none else values[|values| - 1]
  }

  /** The last of them that is a frame. */
  function LastFrame(values: seq<string>, none: Option<nat>): Option<nat> {
    if values == [] then none
    else match ParseInt(values[|values| - 1])
      case Some(n) => if n >= 0 then Some(n) else LastFrame(values[..|values| - 1], none)
      case None => LastFrame(values[..|values| - 1], none)
  }

  lemma {:induction false} LastFrameOfMore(value: string, values: seq<string>, none: Option<nat>)
    ensures LastFrame([value] + values, none) == LastFrame(values, LastFrame([value], none))
    decreases |values|
  {
    if values == [] {
      assert [value] + values == [value];
    } else {
      var n := |values| - 1;
      assert ([value] + values)[..n + 1] == [value] + values[..n] && ([value] + values)[n + 1] == values[n];
      LastFrameOfMore(value, values[..n], none);
    }
  }

  lemma {:induction false} DataLinesAdd(f: Fields, lines: seq<string>)
    ensures AddLines(f, lines).data == f.data + ValuesOf(lines, "data")
    decreases |lines|
  {
    if lines != [] {
      DataLinesAdd(AddLine(f, lines[0]), lines[1..]);
    }
  }

  lemma {:induction false} LastEventLineCounts(f: Fields, lines: seq<string>)
    ensures AddLines(f, lines).event == LastOr(ValuesOf(lines, "event"), f.event)
    decreases |lines|
  {
    if lines != [] {
      LastEventLineCounts(AddLine(f, lines[0]), lines[1..]);
    }
  }

  lemma {:induction false} LastIdLineCounts(f: Fields, lines: seq<string>)
    ensures AddLines(f, lines).id == LastFrame(ValuesOf(lines, "id"), f.id)
    decreases |lines|
  {
    if lines != [] {
      var rest := ValuesOf(lines[1..], "id");
      LastIdLineCounts(AddLine(f, lines[0]), lines[1..]);
      if HasField(lines[0], "id") {
        var value := SplitField(WithoutCr(lines[0])).1;
        LastFrameOfMore(value, rest, f.id);
        assert [value][..0] == [] && ValuesOf(lines, "id") == [value] + rest;
        assert AddLine(f, lines[0]).id == LastFrame([value], f.id);
      } else {
        assert ValuesOf(lines, "id") == rest;
      }
    }
  }

  lemma {:induction false} ValuesHaveNoLf(lines: seq<string>, field: string)
    requires forall i :: 0 <= i < |lines| ==> NoLf(lines[i])
    ensures forall i :: 0 <= i < |ValuesOf(lines, field)| ==> NoLf(ValuesOf(lines, field)[i])
    decreases |lines|
  {
    if lines != [] {
      ValuesHaveNoLf(lines[1..], field);
    }
  }

  lemma {:induction false} LinesHaveNoLf(s: string)
    ensures forall i :: 0 <= i < |SplitLines(s)| ==> NoLf(SplitLines(s)[i])
    decreases |s|
  {
    match IndexOf(s, '\n')
    case None =>
    case Some(i) =>
      FirstAt(s, '\n');
      LinesHaveNoLf(s[i + 1..]);
  }

  lemma {:induction false} FirstAt(s: string, c: char)
    ensures match IndexOf(s, c) case None => c !in s case Some(i) => c !in s[..i]
  {
    if s != [] && s[0] != c {
      FirstAt(s[1..], c);
      match IndexOf(s[1..], c)
      case None =>
      case Some(i) => assert s[..i + 1] == [s[0]] + s[1..][..i];
    }
  }

  lemma {:induction false} JoinedSplits(lines: seq<string>)
    requires lines != [] && forall i :: 0 <= i < |lines| ==> NoLf(lines[i])
    ensures SplitLines(JoinLines(lines)) == lines
    decreases |lines|
  {
    if |lines| == 1 {
      FirstAt(lines[0], '\n');
    } else {
      SplitFirstLine(lines[0], JoinLines(lines[1..]));
      JoinedSplits(lines[1..]);
    }
  }

  /** Whatever a block holds: without a data line it delivers nothing; else its data lines, under the name of
      its last event line and with the last frame of its id lines. Lines of other kinds do not matter. */
  lemma AnyBlockDelivers(block: string)
    ensures var lines := SplitLines(block);
      var data := ValuesOf(lines, "data");
      match BlockValue(block)
      case None => data == []
      case Some(d) =>
        && data != [] && SplitLines(d.data) == data
        && d.event == LastOr(ValuesOf(lines, "event"), "message")
        && d.id == LastFrame(ValuesOf(lines, "id"), None)
  {
    var lines := SplitLines(block);
    var none := Fields("message", [], None);
    DataLinesAdd(none, lines);
    LastEventLineCounts(none, lines);
    LastIdLineCounts(none, lines);
    assert [] + ValuesOf(lines, "data") == ValuesOf(lines, "data");
    LinesHaveNoLf(block);
    ValuesHaveNoLf(lines, "data");
    if ValuesOf(lines, "data") != [] {
      JoinedSplits(ValuesOf(lines, "data"));
    }
  }

  // ------------------------------------------------------------------ a printed block ends where it should

  lemma {:induction false} BlankAfterLine(line: string, rest: string)
    requires NoLf(line) && rest != [] && rest[0] != '\n' && line != ""
    ensures BlankAt(line + "\n" + rest) ==
      match BlankAt(rest) { case None => None case Some(i) => Some(|line| + 1 + i) }
    decreases |line|
  {
    var s := line + "\n" + rest;
    if |line| == 1 {
      assert s[1..] == "\n" + rest && s[1..][1..] == rest;
    } else {
      assert s[1..] == line[1..] + "\n" + rest;
      BlankAfterLine(line[1..], rest);
    }
  }

  lemma {:induction false} BlankAfterLast(line: string, rest: string)
    requires NoLf(line)
    ensures BlankAt(line + "\n\n" + rest) == Some(|line|)
    decreases |line|
  {
    var s := line + "\n\n" + rest;
    if line != "" {
      assert s[1..] == line[1..] + "\n\n" + rest;
      BlankAfterLast(line[1..], rest);
    }
  }

  lemma TwoLinesEnd(name: string, data: string, rest: string)
    requires OneLine(name) && OneLine(data)
    ensures BlankAt("event: " + name + "\n" + ("data: " + data) + "\n\n" + rest)
      == Some(|"event: " + name + "\n" + ("data: " + data)|)
  {
    var first, second := "event: " + name, "data: " + data;
    BlankAfterLast(second, rest);
    BlankAfterLine(first, second + "\n\n" + rest);
    assert first + "\n" + second + "\n\n" + rest == first + "\n" + (second + "\n\n" + rest);
  }

  lemma BlockEnds(m: Message, rest: string)
    requires Printable(m)
    ensures BlankAt(Block(m) + "\n\n" + rest) == Some(|Block(m)|)
  {
    match m
    case Heartbeat => BlankAfterLast(": ping", rest);
    case Event(name, data, id) =>
      var two := "event: " + name + "\n" + ("data: " + data);
      TwoLinesEnd(name, data, rest);
      match id {
        case None => assert IdLine(id) + two == two;
        case Some(n) =>
          var line := "id: " + Digits(n);
          DigitsOnly(n);
          BlankAfterLine(line, two + "\n\n" + rest);
          assert Block(m) + "\n\n" + rest == line + "\n" + (two + "\n\n" + rest);
      }
  }

  // ------------------------------------------------------------------ printer and reader

  /** What the application gets from one message: heartbeats are comments. */
  function Reading(m: Message): Option<Delivery> {
    match m
    case Event(name, data, id) => Some(Delivery(name, data, id))
    case Heartbeat => None
  }

  function ReadingAll(ms: seq<Message>): seq<Delivery> {
    if ms == [] then [] else OptSeq(Reading(ms[0])) + ReadingAll(ms[1..])
  }

  lemma DrainPrinted(m: Message, rest: string)
    requires Printable(m)
    ensures Drain(Print(m) + rest) == (OptSeq(Reading(m)) + Drain(rest).0, Drain(rest).1)
  {
    var s := Print(m) + rest;
    BlockEnds(m, rest);
    BlockParses(m);
    assert s == Block(m) + "\n\n" + rest;
    assert s[..|Block(m)|] == Block(m) && s[|Block(m)| + 2..] == rest;
  }

  lemma {:induction false} DrainPrintedAll(ms: seq<Message>)
    requires forall m :: m in ms ==> Printable(m)
    ensures Drain(PrintAll(ms)) == (ReadingAll(ms), "")
  {
    if ms != [] {
      DrainPrintedAll(ms[1..]);
      DrainPrinted(ms[0], PrintAll(ms[1..]));
    }
  }

  lemma {:induction false} PrintedHasNoCr(ms: seq<Message>)
    requires forall m :: m in ms ==> Printable(m)
    ensures '\r' !in PrintAll(ms)
  {
    if ms != [] {
      PrintedHasNoCr(ms[1..]);
      PrintHasNoCr(ms[0]);
    }
  }

  lemma PrintHasNoCr(m: Message)
    requires Printable(m)
    ensures '\r' !in Print(m)
  {
    if m.Event? && m.id.Some? {
      DigitsOnly(m.id.value);
    }
  }

  /** However the text of any messages is cut into chunks, the client delivers exactly the printed
      events, in order and once each, and is left with nothing. */
  lemma PrinterAndReaderUndoEachOther(ms: seq<Message>, chunks: seq<string>)
    requires forall m :: m in ms ==> Printable(m)
    requires Concat(chunks) == PrintAll(ms)
    ensures Drain(NormalizedAll(chunks)) == (ReadingAll(ms), "")
  {
    PrintedHasNoCr(ms);
    NormalizedAllPlain(chunks);
    DrainPrintedAll(ms);
  }

  // ------------------------------------------------------------------ other line ends

  /** The text with a carriage return before every line feed. */
  function CrLf(s: string): string {
    if s == [] then "" else (if s[0] == '\n' then "\r\n" else [s[0]]) + CrLf(s[1..])
  }

  lemma {:induction false} CrLfNormalized(s: string)
    requires '\r' !in s
    ensures Normalized(CrLf(s)) == s
  {
    if s != [] {
      CrLfNormalized(s[1..]);
      var rest := CrLf(s[1..]);
      if s[0] == '\n' {
        assert CrLf(s)[0] == '\r' && CrLf(s)[1] == '\n' && CrLf(s)[2..] == rest;
      } else {
        assert CrLf(s)[0] == s[0] && CrLf(s)[1..] == rest;
      }
    }
  }

  /** Chunks that end their lines with carriage return and line feed, whole ones, say what the others say. */
  lemma {:induction false} CrLfChunks(chunks: seq<string>, others: seq<string>)
    requires '\r' !in Concat(chunks) && |others| == |chunks|
    requires forall i :: 0 <= i < |chunks| ==> others[i] == CrLf(chunks[i])
    ensures NormalizedAll(others) == Concat(chunks)
    decreases |chunks|
  {
    if chunks != [] {
      var n := |chunks| - 1;
      var before, last := chunks[..n], chunks[n];
      assert forall c :: c in Concat(before) || c in last ==> c in Concat(before) + last;
      CrLfChunks(before, others[..n]);
      CrLfNormalized(last);
    }
  }

  /** The same events are delivered from a stream whose lines end with carriage return and line feed. */
  lemma LineEndsDoNotMatter(ms: seq<Message>, chunks: seq<string>, others: seq<string>)
    requires forall m :: m in ms ==> Printable(m)
    requires Concat(chunks) == PrintAll(ms) && |others| == |chunks|
    requires forall i :: 0 <= i < |chunks| ==> others[i] == CrLf(chunks[i])
    ensures Drain(NormalizedAll(others)) == (ReadingAll(ms), "")
  {
    PrintedHasNoCr(ms);
    CrLfChunks(chunks, others);
    DrainPrintedAll(ms);
  }

  // ------------------------------------------------------------------ a stream that is cut

  lemma PrintEnds(m: Message)
    requires Printable(m)
    ensures BlankAt(Print(m)) == Some(|Print(m)| - 2)
  {
    BlockEnds(m, "");
    assert Block(m) + "\n\n" + "" == Print(m);
  }

  /** A message that has not arrived in full delivers nothing. */
  lemma UnfinishedMessage(m: Message, n: nat)
    requires Printable(m) && n < |Print(m)|
    ensures Drain(Print(m)[..n]).0 == []
  {
    var whole := Print(m);
    PrintEnds(m);
    assert whole[..n] + whole[n..] == whole;
    if BlankAt(whole[..n]).Some? {
      BlankAtAppend(whole[..n], whole[n..]);
      assert false;
    }
  }

  lemma TakeOfTwo(a: string, b: string, n: nat)
    requires n <= |a + b|
    ensures n <= |a| ==> (a + b)[..n] == a[..n]
    ensures n >= |a| ==> (a + b)[..n] == a + b[..n - |a|]
  {
  }

  /** A connection cut in the middle of the text has delivered exactly the events whose text arrived in
      full: `k` messages fit into the first `n` characters. */
  lemma {:induction false} CutStreamDeliversPrefix(ms: seq<Message>, n: nat) returns (k: nat)
    requires forall m :: m in ms ==> Printable(m)
    requires n <= |PrintAll(ms)|
    ensures k <= |ms| && Drain(PrintAll(ms)[..n]).0 == ReadingAll(ms[..k])
    ensures |PrintAll(ms[..k])| <= n && (k < |ms| ==> n < |PrintAll(ms[..k + 1])|)
    decreases |ms|
  {
    if ms == [] {
      k := 0;
    } else {
      if n < |Print(ms[0])| {
        k := 0;
        NothingArrived(ms, n);
      } else {
        FirstMessageArrived(ms, n);
        var j := CutStreamDeliversPrefix(ms[1..], n - |Print(ms[0])|);
        k := j + 1;
        PrintTakes(ms, j);
        if k < |ms| {
          PrintTakes(ms, k);
        }
      }
    }
  }

  lemma NothingArrived(ms: seq<Message>, n: nat)
    requires ms != [] && Printable(ms[0]) && n < |Print(ms[0])|
    ensures n <= |PrintAll(ms)| && Drain(PrintAll(ms)[..n]).0 == []
    ensures ReadingAll(ms[..0]) == [] && PrintAll(ms[..0]) == "" && n < |PrintAll(ms[..1])|
  {
    PrintTakes(ms, 0);
    UnfinishedMessage(ms[0], n);
    TakeOfTwo(Print(ms[0]), PrintAll(ms[1..]), n);
  }

  lemma FirstMessageArrived(ms: seq<Message>, n: nat)
    requires ms != [] && Printable(ms[0]) && |Print(ms[0])| <= n <= |PrintAll(ms)|
    ensures n - |Print(ms[0])| <= |PrintAll(ms[1..])|
    ensures Drain(PrintAll(ms)[..n]).0 == OptSeq(Reading(ms[0])) + Drain(PrintAll(ms[1..])[..n - |Print(ms[0])|]).0
  {
    var first, later := Print(ms[0]), PrintAll(ms[1..]);
    DrainPrinted(ms[0], later[..n - |first|]);
    TakeOfTwo(first, later, n);
  }

  lemma PrintTakes(ms: seq<Message>, j: nat)
    requires j < |ms|
    ensures PrintAll(ms[..j + 1]) == Print(ms[0]) + PrintAll(ms[1..][..j])
    ensures ReadingAll(ms[..j + 1]) == OptSeq(Reading(ms[0])) + ReadingAll(ms[1..][..j])
    ensures ms[1..][..0] == [] && ms[..0] == []
  {
    assert ms[..j + 1][0] == ms[0] && ms[..j + 1][1..] == ms[1..][..j];
  }
}
