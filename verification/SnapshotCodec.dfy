/** The line format of the queue snapshot: encoder, decoder, and what decoding an encoded line gives.

    A line is a sequence of bytes, written here as characters. Strings are length-prefixed, integers
    end with ';'. */
module SnapshotCodec {
  import opened Wrappers
  import opened Decimals

  type int64 = v: int | -0x8000_0000_0000_0000 <= v < 0x8000_0000_0000_0000

  const SIZE_MAX := 0xffff_ffff_ffff_ffff
  const VERSION := '1'
  const MAX_PLAYERS := 8

  datatype Row =
    | QueuedRow(player: string, queuedAt: int64)
    | MatchedRow(matchId: string, roomId: string, stamp: int64, members: seq<string>)

  datatype Problem =
    | EmptyLine | UnknownVersion | NoKind | UnknownKind
    | PlayerCut | QueuedAtCut | MatchIdCut | RoomIdCut | StampCut | CountCut | CountRange | MemberCut
    | TrailingBytes
    | BadPlayer | BadQueuedAt | BadMatchId | BadRoomId | BadStamp | BadMemberCount | BadMember

  datatype Decoded = Good(row: Row) | Bad(problem: Problem)

  // ------------------------------------------------------------------ validation, shared by both sides

  /** The first field found wrong, in the order the fields are checked. */
  function Validate(row: Row): Option<Problem> {
    match row
    case QueuedRow(player, queuedAt) =>
      if !ValidId(player) then Some(BadPlayer)
      else if queuedAt <= 0 then Some(BadQueuedAt)
      else None
    case MatchedRow(matchId, roomId, stamp, members) =>
      if !ValidId(matchId) then Some(BadMatchId)
      else if !ValidId(roomId) then Some(BadRoomId)
      else if stamp <= 0 then Some(BadStamp)
      else if members == [] || |members| > MAX_PLAYERS then Some(BadMemberCount)
      else if exists i :: 0 <= i < |members| && !ValidId(members[i]) then Some(BadMember)
      else None
  }

  predicate IdFits(s: string) {
    1 <= |s| <= 64
  }

  /** Exactly which rows are stored. */
  lemma RowFitsIff(row: Row)
    ensures Validate(row).None? <==>
      match row
      case QueuedRow(player, queuedAt) => IdFits(player) && queuedAt > 0
      case MatchedRow(matchId, roomId, stamp, members) =>
        && IdFits(matchId) && IdFits(roomId) && stamp > 0 && 1 <= |members| <= 8
        && forall i :: 0 <= i < |members| ==> IdFits(members[i])
  {
  }

  // ------------------------------------------------------------------ encoding

  function StringField(s: string): string {
    Digits(|s|) + ":" + s
  }

  function IntField(v: int): string {
    IntText(v) + ";"
  }

  function MemberFields(members: seq<string>): string {
    if members == [] then "" else StringField(members[0]) + MemberFields(members[1..])
  }

  function KindChar(row: Row): char {
    if row.QueuedRow? then 'Q' else 'M'
  }

  function FieldsOf(row: Row): string {
    match row
    case QueuedRow(player, queuedAt) => StringField(player) + IntField(queuedAt)
    case MatchedRow(matchId, roomId, stamp, members) =>
      StringField(matchId) + StringField(roomId) + IntField(stamp) + IntField(|members|) + MemberFields(members)
  }

  function LineOf(row: Row): string {
    [VERSION, KindChar(row)] + FieldsOf(row)
  }

  lemma OneLetter(s: string)
    requires |s| == 1
    ensures StringField(s) == "1:" + s
  {
    assert Digits(1) == "1";
  }

  lemma OneDigit(n: nat)
    requires n < 10
    ensures IntField(n) == [Decimals.DigitChar(n)] + ";"
  {
  }

  /** What lines look like: the version, the kind, strings after their lengths, integers up to a semicolon. */
  lemma QueuedLineLooksLikeThis()
    ensures LineOf(QueuedRow("a", 7)) == "1Q1:a7;"
  {
    OneLetter("a");
    OneDigit(7);
    assert FieldsOf(QueuedRow("a", 7)) == "1:a7;";
  }

  lemma MatchedLineLooksLikeThis()
    ensures LineOf(MatchedRow("m", "r", 7, ["a", "b"])) == "1M1:m1:r7;2;1:a1:b"
  {
    OneLetter("m");
    OneLetter("r");
    OneLetter("a");
    OneLetter("b");
    OneDigit(7);
    OneDigit(2);
    assert ["a", "b"][1..] == ["b"] && ["b"][1..] == [];
    assert MemberFields(["b"]) == "1:b";
    assert MemberFields(["a", "b"]) == "1:a1:b";
    assert FieldsOf(MatchedRow("m", "r", 7, ["a", "b"])) == "1:m1:r7;2;1:a1:b";
  }

  /** The encoder appends field after field to a buffer, and refuses an invalid row. */
  method Encode(row: Row) returns (line: Option<string>)
    ensures line == if Validate(row).None? then Some(LineOf(row)) else None
  {
    if Validate(row).Some? {
      return None;
    }
    var out := [VERSION, KindChar(row)];
    match row {
      case QueuedRow(player, queuedAt) =>
        out := out + StringField(player);
        out := out + IntField(queuedAt);
        Regroup([VERSION, 'Q'], StringField(player), IntField(queuedAt), "", "", "");
        assert out + "" + "" + "" == out;
        assert FieldsOf(row) + "" + "" + "" == FieldsOf(row);
      case MatchedRow(matchId, roomId, stamp, members) =>
        out := out + StringField(matchId);
        out := out + StringField(roomId);
        out := out + IntField(stamp);
        out := out + IntField(|members|);
        out := AppendMembers(out, members);
        Regroup([VERSION, 'M'], StringField(matchId), StringField(roomId), IntField(stamp),
                IntField(|members|), MemberFields(members));
    }
    return Some(out);
  }

  lemma Regroup(head: string, a: string, b: string, c: string, d: string, e: string)
    ensures head + (a + b + c + d + e) == head + a + b + c + d + e
    ensures a + b + c + d + e == a + b + (c + (d + e))
  {
  }

  method AppendMembers(head: string, members: seq<string>) returns (out: string)
    ensures out == head + MemberFields(members)
  {
    out := head;
    var i := 0;
    while i < |members|
      invariant 0 <= i <= |members|
      invariant out + MemberFields(members[i..]) == head + MemberFields(members)
    {
      assert members[i..][1..] == members[i + 1..];
      out := out + StringField(members[i]);
      i := i + 1;
    }
    assert members[i..] == [];
  }

  // ------------------------------------------------------------------ reading one field

  /** `<length>:<bytes>`; the result is the string and the text left. */
  function ReadString(s: string): Option<(string, string)> {
    match ScanNat(s, 0, false)
    case None => None
    case Some((length, rest)) =>
      if rest == [] || rest[0] != ':' || length > SIZE_MAX || length > |rest| - 1 then None
      else Some((rest[1..1 + length], rest[1 + length..]))
  }

  predicate IsInt64(v: int) {
    -0x8000_0000_0000_0000 <= v < 0x8000_0000_0000_0000
  }

  /** `<integer>;` with an optional minus sign; out of range fails. */
  function ReadInt(s: string): Option<(int64, string)> {
    var negative := s != [] && s[0] == '-';
    match ScanNat(if negative then s[1..] else s, 0, false)
    case None => None
    case Some((magnitude, rest)) =>
      if rest == [] || rest[0] != ';' || !IsInt64(Signed(negative, magnitude)) then None
      else Some((Signed(negative, magnitude), rest[1..]))
  }

  /** `count` more strings, appended to the ones read before. */
  function ReadMembers(done: seq<string>, s: string, count: nat): Option<(seq<string>, string)>
    decreases count
  {
    if count == 0 then Some((done, s))
    else match ReadString(s)
      case None => None
      case Some((first, rest)) => ReadMembers(done + [first], rest, count - 1)
  }

  // ------------------------------------------------------------------ decoding

  function Accept(row: Row, rest: string): (d: Decoded)
    ensures d.Good? ==> d.row == row && rest == [] && Validate(row).None?
  {
    if rest != [] then Bad(TrailingBytes)
    else match Validate(row)
      case Some(p) => Bad(p)
      case None => Good(row)
  }

  function DecodeQueued(s: string): (d: Decoded)
    ensures d.Good? ==> Validate(d.row).None?
  {
    match ReadString(s)
    case None => Bad(PlayerCut)
    case Some((player, s1)) =>
      match ReadInt(s1)
      case None => Bad(QueuedAtCut)
      case Some((queuedAt, rest)) => Accept(QueuedRow(player, queuedAt), rest)
  }

  function DecodeMatched(s: string): (d: Decoded)
    ensures d.Good? ==> Validate(d.row).None?
  {
    match ReadString(s)
    case None => Bad(MatchIdCut)
    case Some((matchId, s1)) =>
      match ReadString(s1)
      case None => Bad(RoomIdCut)
      case Some((roomId, s2)) => DecodeStampAndMembers(matchId, roomId, s2)
  }

  function DecodeStampAndMembers(matchId: string, roomId: string, s: string): (d: Decoded)
    ensures d.Good? ==> Validate(d.row).None?
  {
    match ReadInt(s)
    case None => Bad(StampCut)
    case Some((stamp, s1)) =>
      match ReadInt(s1)
      case None => Bad(CountCut)
      case Some((count, s2)) =>
        if count <= 0 || count > MAX_PLAYERS then Bad(CountRange)
        else match ReadMembers([], s2, count)
          case None => Bad(MemberCut)
          case Some((members, rest)) => Accept(MatchedRow(matchId, roomId, stamp, members), rest)
  }

  /** Every accepted line carries a row the encoder would have accepted too. */
  function DecodeLine(line: string): (d: Decoded)
    ensures d.Good? ==> Validate(d.row).None?
  {
    if line == [] then Bad(EmptyLine)
    else if line[0] != VERSION then Bad(UnknownVersion)
    else if |line| == 1 then Bad(NoKind)
    else if line[1] == 'Q' then DecodeQueued(line[2..])
    else if line[1] == 'M' then DecodeMatched(line[2..])
    else Bad(UnknownKind)
  }

  /** The sequential reader over one line; `pos` only moves forward. */
  class Reader {
    const text: string
    var pos: nat

    ghost predicate Valid()
      reads this
    {
      pos <= |text|
    }

    /** The text not read yet. */
    ghost function Rest(): string
      requires Valid()
      reads this
    {
      text[pos..]
    }

    constructor (line: string)
      ensures Valid() && text == line && pos == 0
    {
      text := line;
      pos := 0;
    }

    method ReadChar() returns (c: Option<char>)
      requires Valid()
      modifies this
      ensures Valid()
      ensures old(pos) < |text| ==> c == Some(text[old(pos)]) && pos == old(pos) + 1
      ensures old(pos) == |text| ==> c == None && pos == old(pos)
    {
      if pos >= |text| {
        return None;
      }
      c := Some(text[pos]);
      pos := pos + 1;
    }

    method ReadStringField() returns (r: Option<string>)
      requires Valid()
      modifies this
      ensures Valid()
      ensures match r
        case None => ReadString(old(Rest())).None?
        case Some(value) => ReadString(old(Rest())) == Some((value, Rest()))
    {
      var scanned := ScanNat(text[pos..], 0, false);
      if scanned.None? {
        return None;
      }
      var (length, rest) := scanned.value;
      ghost var used := ScanIsSuffix(text[pos..], 0, false);
      if rest == [] || rest[0] != ':' || length > SIZE_MAX {
        return None;
      }
      pos := |text| - |rest| + 1;
      if length > |text| - pos {
        return None;
      }
      r := Some(text[pos..pos + length]);
      assert rest == text[pos - 1..];
      assert rest[1..1 + length] == text[pos..pos + length];
      pos := pos + length;
      assert rest[1 + length..] == text[pos..];
    }

    method ReadIntField() returns (r: Option<int64>)
      requires Valid()
      modifies this
      ensures Valid()
      ensures match r
        case None => ReadInt(old(Rest())).None?
        case Some(value) => ReadInt(old(Rest())) == Some((value, Rest()))
    {
      var negative := pos < |text| && text[pos] == '-';
      var body := if negative then text[pos + 1..] else text[pos..];
      assert negative ==> body == text[pos..][1..];
      var scanned := ScanNat(body, 0, false);
      if scanned.None? {
        return None;
      }
      var (magnitude, rest) := scanned.value;
      ghost var used := ScanIsSuffix(body, 0, false);
      if rest == [] || rest[0] != ';' || !IsInt64(Signed(negative, magnitude)) {
        return None;
      }
      r := Some(Signed(negative, magnitude));
      pos := |text| - |rest| + 1;
      assert rest[1..] == text[pos..];
    }

    method AtEnd() returns (end: bool)
      requires Valid()
      ensures end <==> Rest() == []
    {
      end := pos == |text|;
    }
  }

  method DecodeQueuedFields(reader: Reader) returns (d: Decoded)
    requires reader.Valid()
    modifies reader
    ensures d == DecodeQueued(old(reader.Rest()))
  {
    var player := reader.ReadStringField();
    if player.None? {
      return Bad(PlayerCut);
    }
    var queuedAt := reader.ReadIntField();
    if queuedAt.None? {
      return Bad(QueuedAtCut);
    }
    d := Finish(reader, QueuedRow(player.value, queuedAt.value));
  }

  method ReadMemberFields(reader: Reader, count: nat) returns (r: Option<seq<string>>)
    requires reader.Valid()
    modifies reader
    ensures reader.Valid()
    ensures match r
      case None => ReadMembers([], old(reader.Rest()), count).None?
      case Some(value) => ReadMembers([], old(reader.Rest()), count) == Some((value, reader.Rest()))
  {
    var members := [];
    var left := count;
    while left > 0
      invariant reader.Valid()
      invariant ReadMembers(members, reader.Rest(), left) == ReadMembers([], old(reader.Rest()), count)
    {
      var member := reader.ReadStringField();
      if member.None? {
        return None;
      }
      members, left := members + [member.value], left - 1;
    }
    return Some(members);
  }

  method DecodeMatchedFields(reader: Reader) returns (d: Decoded)
    requires reader.Valid()
    modifies reader
    ensures d == DecodeMatched(old(reader.Rest()))
  {
    var matchId := reader.ReadStringField();
    if matchId.None? {
      return Bad(MatchIdCut);
    }
    var roomId := reader.ReadStringField();
    if roomId.None? {
      return Bad(RoomIdCut);
    }
    var stamp := reader.ReadIntField();
    if stamp.None? {
      return Bad(StampCut);
    }
    var count := reader.ReadIntField();
    if count.None? {
      return Bad(CountCut);
    }
    // The bound is tested before the loop: a corrupt count must not become a long loop.
    if count.value <= 0 || count.value > MAX_PLAYERS {
      return Bad(CountRange);
    }
    var members := ReadMemberFields(reader, count.value);
    if members.None? {
      return Bad(MemberCut);
    }
    d := Finish(reader, MatchedRow(matchId.value, roomId.value, stamp.value, members.value));
  }

  method Finish(reader: Reader, row: Row) returns (d: Decoded)
    requires reader.Valid()
    ensures d == Accept(row, reader.Rest())
  {
    var end := reader.AtEnd();
    if !end {
      return Bad(TrailingBytes);
    }
    var problem := Validate(row);
    if problem.Some? {
      return Bad(problem.value);
    }
    return Good(row);
  }

  /** The decoder, reading field by field and giving up at the first that is cut or out of range. */
  method Decode(line: string) returns (d: Decoded)
    ensures d == DecodeLine(line)
  {
    var reader := new Reader(line);
    var version := reader.ReadChar();
    if version.None? {
      return Bad(EmptyLine);
    }
    if version.value != VERSION {
      return Bad(UnknownVersion);
    }
    var kind := reader.ReadChar();
    if kind.None? {
      return Bad(NoKind);
    }
    if kind.value == 'Q' {
      d := DecodeQueuedFields(reader);
    } else if kind.value == 'M' {
      d := DecodeMatchedFields(reader);
    } else {
      return Bad(UnknownKind);
    }
  }

  // ------------------------------------------------------------------ decoding undoes encoding

  lemma {:induction false} ScanIsSuffix(s: string, value: nat, any: bool) returns (used: string)
    requires ScanNat(s, value, any).Some?
    ensures s == used + ScanNat(s, value, any).value.1
  {
    if s != [] && IsDigit(s[0]) {
      used := ScanIsSuffix(s[1..], 10 * value + DigitValue(s[0]), true);
      used := [s[0]] + used;
    } else {
      used := "";
    }
  }

  lemma StringFieldReads(s: string, rest: string)
    requires |s| <= SIZE_MAX
    ensures ReadString(StringField(s) + rest) == Some((s, rest))
  {
    var after := ":" + s + rest;
    assert StringField(s) + rest == Digits(|s|) + after;
    ScanDigits(|s|, after);
    assert after[1..1 + |s|] == s && after[1 + |s|..] == rest;
  }

  lemma NegativeFieldReads(magnitude: nat, rest: string)
    requires 0 < magnitude <= 0x8000_0000_0000_0000
    ensures ReadInt(("-" + Digits(magnitude) + ";") + rest) == Some((Signed(true, magnitude), rest))
  {
    var text := ("-" + Digits(magnitude) + ";") + rest;
    assert text[1..] == Digits(magnitude) + (";" + rest);
    ScanDigits(magnitude, ";" + rest);
    assert (";" + rest)[1..] == rest;
  }

  lemma NaturalFieldReads(magnitude: nat, rest: string)
    requires magnitude < 0x8000_0000_0000_0000
    ensures ReadInt((Digits(magnitude) + ";") + rest) == Some((magnitude, rest))
  {
    var text := (Digits(magnitude) + ";") + rest;
    assert text == Digits(magnitude) + (";" + rest);
    DigitsStart(magnitude);
    ScanDigits(magnitude, ";" + rest);
    assert (";" + rest)[1..] == rest;
  }

  lemma IntFieldReads(v: int64, rest: string)
    ensures ReadInt(IntField(v) + rest) == Some((v, rest))
  {
    var value: int := v;
    if value < 0 {
      NegativeFieldReads(-value, rest);
    } else {
      NaturalFieldReads(value, rest);
    }
  }

  lemma {:induction false} MemberFieldsRead(done: seq<string>, members: seq<string>)
    requires forall i :: 0 <= i < |members| ==> |members[i]| <= SIZE_MAX
    ensures ReadMembers(done, MemberFields(members), |members|) == Some((done + members, ""))
    decreases |members|
  {
    if members == [] {
      assert done + members == done;
    } else {
      StringFieldReads(members[0], MemberFields(members[1..]));
      MemberFieldsRead(done + [members[0]], members[1..]);
      assert done + [members[0]] + members[1..] == done + members;
    }
  }

  lemma QueuedRoundTrip(row: Row)
    requires row.QueuedRow? && Validate(row).None?
    ensures DecodeQueued(FieldsOf(row)) == Good(row)
  {
    var s1 := IntField(row.queuedAt);
    StringFieldReads(row.player, s1);
    IntFieldReads(row.queuedAt, "");
    assert s1 + "" == s1;
  }

  lemma IdsRead(matchId: string, roomId: string, s2: string)
    requires |matchId| <= MAX_ID_LENGTH && |roomId| <= MAX_ID_LENGTH
    ensures DecodeMatched(StringField(matchId) + StringField(roomId) + s2) == DecodeStampAndMembers(matchId, roomId, s2)
  {
    assert StringField(matchId) + StringField(roomId) + s2 == StringField(matchId) + (StringField(roomId) + s2);
    StringFieldReads(matchId, StringField(roomId) + s2);
    StringFieldReads(roomId, s2);
  }

  lemma MembersRead(row: Row)
    requires row.MatchedRow? && Validate(row).None?
    ensures DecodeStampAndMembers(row.matchId, row.roomId,
              IntField(row.stamp) + (IntField(|row.members|) + MemberFields(row.members))) == Good(row)
  {
    var s4 := MemberFields(row.members);
    IntFieldReads(row.stamp, IntField(|row.members|) + s4);
    IntFieldReads(|row.members|, s4);
    assert forall i :: 0 <= i < |row.members| ==> ValidId(row.members[i]);
    MemberFieldsRead([], row.members);
  }

  lemma MatchedRoundTrip(row: Row)
    requires row.MatchedRow? && Validate(row).None?
    ensures DecodeMatched(FieldsOf(row)) == Good(row)
  {
    var s2 := IntField(row.stamp) + (IntField(|row.members|) + MemberFields(row.members));
    Regroup("", StringField(row.matchId), StringField(row.roomId), IntField(row.stamp),
            IntField(|row.members|), MemberFields(row.members));
    IdsRead(row.matchId, row.roomId, s2);
    MembersRead(row);
  }

  /** Decoding what the encoder wrote gives the row back. */
  lemma RoundTrip(row: Row)
    requires Validate(row).None?
    ensures DecodeLine(LineOf(row)) == Good(row)
  {
    HeaderDecodes(KindChar(row), FieldsOf(row));
    if row.QueuedRow? {
      QueuedRoundTrip(row);
    } else {
      MatchedRoundTrip(row);
    }
  }

  // ------------------------------------------------------------------ accepted lines are prefix-free

  lemma {:induction false} ScanExtends(s: string, value: nat, any: bool, more: string)
    requires ScanNat(s, value, any).Some? && ScanNat(s, value, any).value.1 != []
    ensures var found := ScanNat(s, value, any).value; ScanNat(s + more, value, any) == Some((found.0, found.1 + more))
  {
    if s != [] && IsDigit(s[0]) {
      assert (s + more)[1..] == s[1..] + more;
      ScanExtends(s[1..], 10 * value + DigitValue(s[0]), true, more);
    }
  }

  lemma ReadStringExtends(s: string, more: string)
    requires ReadString(s).Some?
    ensures ReadString(s + more) == Some((ReadString(s).value.0, ReadString(s).value.1 + more))
  {
    ScanExtends(s, 0, false, more);
    var (length, rest) := ScanNat(s, 0, false).value;
    assert (rest + more)[1..1 + length] == rest[1..1 + length];
    assert (rest + more)[1 + length..] == rest[1 + length..] + more;
  }

  lemma ReadIntExtends(s: string, more: string)
    requires ReadInt(s).Some?
    ensures ReadInt(s + more) == Some((ReadInt(s).value.0, ReadInt(s).value.1 + more))
  {
    var negative := s[0] == '-';
    var body := if negative then s[1..] else s;
    assert negative ==> (s + more)[1..] == body + more;
    ScanExtends(body, 0, false, more);
    var (magnitude, rest) := ScanNat(body, 0, false).value;
    assert (rest + more)[1..] == rest[1..] + more;
  }

  lemma {:induction false} ReadMembersExtends(done: seq<string>, s: string, count: nat, more: string)
    requires ReadMembers(done, s, count).Some?
    ensures ReadMembers(done, s + more, count).Some?
    ensures ReadMembers(done, s + more, count).value.1 == ReadMembers(done, s, count).value.1 + more
    decreases count
  {
    if count > 0 {
      ReadStringExtends(s, more);
      var (first, rest) := ReadString(s).value;
      ReadMembersExtends(done + [first], rest, count - 1, more);
    }
  }

  lemma MatchedExtends(s: string, more: string)
    requires DecodeMatched(s).Good? && more != []
    ensures DecodeMatched(s + more) == Bad(TrailingBytes)
  {
    ReadStringExtends(s, more);
    var s1 := ReadString(s).value.1;
    ReadStringExtends(s1, more);
    StampAndMembersExtend(ReadString(s).value.0, ReadString(s1).value.0, ReadString(s1).value.1, more);
  }

  lemma StampAndMembersExtend(matchId: string, roomId: string, s: string, more: string)
    requires DecodeStampAndMembers(matchId, roomId, s).Good? && more != []
    ensures DecodeStampAndMembers(matchId, roomId, s + more) == Bad(TrailingBytes)
  {
    ReadIntExtends(s, more);
    var s1 := ReadInt(s).value.1;
    ReadIntExtends(s1, more);
    ReadMembersExtends([], ReadInt(s1).value.1, ReadInt(s1).value.0, more);
  }

  lemma QueuedExtends(s: string, more: string)
    requires DecodeQueued(s).Good? && more != []
    ensures DecodeQueued(s + more) == Bad(TrailingBytes)
  {
    ReadStringExtends(s, more);
    ReadIntExtends(ReadString(s).value.1, more);
  }

  lemma HeaderDecodes(kind: char, fields: string)
    requires kind == 'Q' || kind == 'M'
    ensures DecodeLine([VERSION, kind] + fields) == if kind == 'Q' then DecodeQueued(fields) else DecodeMatched(fields)
  {
    assert ([VERSION, kind] + fields)[2..] == fields;
  }

  /** A line with anything appended to it is rejected if the line itself is accepted. */
  lemma ExtensionRejected(line: string, more: string)
    requires DecodeLine(line).Good? && more != []
    ensures DecodeLine(line + more) == Bad(TrailingBytes)
  {
    HeaderOf(line);
    HeaderSplits(line, more);
    ExtendedFields(line[1], line[2..], more);
  }

  lemma HeaderSplits(line: string, more: string)
    requires |line| >= 2 && line[0] == VERSION
    ensures line == [VERSION, line[1]] + line[2..]
    ensures line + more == [VERSION, line[1]] + (line[2..] + more)
  {
  }

  lemma HeaderOf(line: string)
    requires DecodeLine(line).Good?
    ensures |line| >= 2 && line[0] == VERSION && (line[1] == 'Q' || line[1] == 'M')
  {
  }

  lemma ExtendedFields(kind: char, fields: string, more: string)
    requires (kind == 'Q' || kind == 'M') && DecodeLine([VERSION, kind] + fields).Good? && more != []
    ensures DecodeLine([VERSION, kind] + (fields + more)) == Bad(TrailingBytes)
  {
    HeaderDecodes(kind, fields);
    HeaderDecodes(kind, fields + more);
    if kind == 'Q' {
      QueuedExtends(fields, more);
    } else {
      MatchedExtends(fields, more);
    }
  }

  /** No accepted line is a proper prefix of another. */
  lemma AcceptedLinesPrefixFree(a: string, b: string)
    requires DecodeLine(a).Good? && DecodeLine(b).Good? && a <= b
    ensures a == b
  {
    if a != b {
      assert b == a + b[|a|..];
      ExtensionRejected(a, b[|a|..]);
    }
  }

  /** Cutting an encoded line short, or appending to it, gets it rejected. */
  lemma EncodedLineIsSelfDelimiting(row: Row, line: string)
    requires Validate(row).None?
    requires line < LineOf(row) || LineOf(row) < line
    ensures DecodeLine(line).Bad?
  {
    RoundTrip(row);
    if DecodeLine(line).Good? {
      if line < LineOf(row) {
        AcceptedLinesPrefixFree(line, LineOf(row));
      } else {
        AcceptedLinesPrefixFree(LineOf(row), line);
      }
    }
  }
}
