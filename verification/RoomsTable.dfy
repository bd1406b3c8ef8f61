/** The rooms table: one row per match, overwritten column by column under a timestamp test. */
module RoomsTables {
  import opened RoomCore
  import opened RoomRuns
  import opened RoomStore

  /** The columns the upsert assigns, every one of them under its own comparison of timestamps. */
  datatype Column =
    | RoomIdCol | StateCol | FrameCol | P1IdCol | P1HpCol | P1JoinedCol | P2IdCol | P2HpCol | P2JoinedCol
    | WinnerCol | ReasonCol | StartedCol | FinishedCol | SnapshotAtCol

  /** In the order of the statement. */
  const COLUMNS := [RoomIdCol, StateCol, FrameCol, P1IdCol, P1HpCol, P1JoinedCol, P2IdCol, P2HpCol, P2JoinedCol,
                    WinnerCol, ReasonCol, StartedCol, FinishedCol, SnapshotAtCol]

  type TableRow = r: Record | |r.players| == 2
    witness Record("", "", Created, 0, [PlayerRow("", 0, false), PlayerRow("", 0, false)], "", NoReason, 0, 0, 0)

  function Copy(row: TableRow, rec: TableRow, c: Column): TableRow {
    match c
    case RoomIdCol => row.(roomId := rec.roomId)
    case StateCol => row.(phase := rec.phase)
    case FrameCol => row.(frame := rec.frame)
    case P1IdCol => row.(players := [row.players[0].(id := rec.players[0].id), row.players[1]])
    case P1HpCol => row.(players := [row.players[0].(hp := rec.players[0].hp), row.players[1]])
    case P1JoinedCol => row.(players := [row.players[0].(joined := rec.players[0].joined), row.players[1]])
    case P2IdCol => row.(players := [row.players[0], row.players[1].(id := rec.players[1].id)])
    case P2HpCol => row.(players := [row.players[0], row.players[1].(hp := rec.players[1].hp)])
    case P2JoinedCol => row.(players := [row.players[0], row.players[1].(joined := rec.players[1].joined)])
    case WinnerCol => row.(winner := rec.winner)
    case ReasonCol => row.(reason := rec.reason)
    case StartedCol => row.(startedAt := rec.startedAt)
    case FinishedCol => row.(finishedAt := rec.finishedAt)
    case SnapshotAtCol => row.(snapshotAt := rec.snapshotAt)
  }

  /** `col = IF(VALUES(snapshot_at_ms) >= snapshot_at_ms, VALUES(col), col)` on the row as it is now. */
  function Assign(row: TableRow, rec: TableRow, c: Column): TableRow {
    if rec.snapshotAt >= row.snapshotAt then Copy(row, rec, c) else row
  }

  function AssignAll(row: TableRow, rec: TableRow, cols: seq<Column>): TableRow
    decreases |cols|
  {
    if cols == [] then row else AssignAll(Assign(row, rec, cols[0]), rec, cols[1..])
  }

  /** The value of one column. */
  datatype Cell = Text(s: string) | Number(n: int) | Flag(b: bool) | PhaseCell(p: Phase) | ReasonCell(r: Reason)

  function CellOf(row: TableRow, c: Column): Cell {
    match c
    case RoomIdCol => Text(row.roomId)
    case StateCol => PhaseCell(row.phase)
    case FrameCol => Number(row.frame)
    case P1IdCol => Text(row.players[0].id)
    case P1HpCol => Number(row.players[0].hp)
    case P1JoinedCol => Flag(row.players[0].joined)
    case P2IdCol => Text(row.players[1].id)
    case P2HpCol => Number(row.players[1].hp)
    case P2JoinedCol => Flag(row.players[1].joined)
    case WinnerCol => Text(row.winner)
    case ReasonCol => ReasonCell(row.reason)
    case StartedCol => Number(row.startedAt)
    case FinishedCol => Number(row.finishedAt)
    case SnapshotAtCol => Number(row.snapshotAt)
  }

  predicate SameCell(a: TableRow, b: TableRow, c: Column) {
    CellOf(a, c) == CellOf(b, c)
  }

  lemma PlayerCellsDetermine(a: TableRow, b: TableRow)
    requires SameCell(a, b, P1IdCol) && SameCell(a, b, P1HpCol) && SameCell(a, b, P1JoinedCol)
    requires SameCell(a, b, P2IdCol) && SameCell(a, b, P2HpCol) && SameCell(a, b, P2JoinedCol)
    ensures a.players == b.players
  {
  }

  lemma RoomCellsDetermine(a: TableRow, b: TableRow)
    requires SameCell(a, b, RoomIdCol) && SameCell(a, b, StateCol) && SameCell(a, b, FrameCol)
      && SameCell(a, b, WinnerCol)
    requires SameCell(a, b, ReasonCol) && SameCell(a, b, StartedCol) && SameCell(a, b, FinishedCol)
    requires SameCell(a, b, SnapshotAtCol)
    ensures a.(matchId := b.matchId, players := b.players) == b
  {
  }

  lemma CellsDetermineRow(a: TableRow, b: TableRow)
    requires a.matchId == b.matchId && forall c :: SameCell(a, b, c)
    ensures a == b
  {
    PlayerCellsDetermine(a, b);
    RoomCellsDetermine(a, b);
  }

  lemma CopyTouchesOneCell(row: TableRow, rec: TableRow, c: Column, d: Column)
    ensures CellOf(Copy(row, rec, c), d) == if d == c then CellOf(rec, d) else CellOf(row, d)
    ensures Copy(row, rec, c).matchId == row.matchId
  {
  }

  lemma {:induction false} AssignAllCells(row: TableRow, rec: TableRow, cols: seq<Column>, d: Column)
    ensures var r := AssignAll(row, rec, cols);
      && r.matchId == row.matchId
      && CellOf(r, d) == if rec.snapshotAt >= row.snapshotAt && d in cols then CellOf(rec, d) else CellOf(row, d)
    decreases |cols|
  {
    if cols != [] {
      var next := Assign(row, rec, cols[0]);
      CopyTouchesOneCell(row, rec, cols[0], d);
      CopyTouchesOneCell(row, rec, cols[0], SnapshotAtCol);
      assert CellOf(next, SnapshotAtCol) == Number(next.snapshotAt);
      AssignAllCells(next, rec, cols[1..], d);
      assert d in cols <==> d == cols[0] || d in cols[1..];
    }
  }

  /** All columns move together or none does, in whatever order they are assigned: the timestamp's own
      assignment cannot make a later column decide otherwise, since the test admits equality. */
  lemma ColumnsMoveTogether(row: TableRow, rec: TableRow, cols: seq<Column>)
    requires row.matchId == rec.matchId && forall c: Column :: c in cols
    ensures AssignAll(row, rec, cols) == if rec.snapshotAt >= row.snapshotAt then rec else row
  {
    var result := if rec.snapshotAt >= row.snapshotAt then rec else row;
    forall c ensures SameCell(AssignAll(row, rec, cols), result, c) {
      AssignAllCells(row, rec, cols, c);
    }
    AssignAllCells(row, rec, cols, RoomIdCol);
    CellsDetermineRow(AssignAll(row, rec, cols), result);
  }

  lemma EveryColumnListed(c: Column)
    ensures c in COLUMNS
  {
    match c
    case RoomIdCol => assert COLUMNS[0] == c;
    case StateCol => assert COLUMNS[1] == c;
    case FrameCol => assert COLUMNS[2] == c;
    case P1IdCol => assert COLUMNS[3] == c;
    case P1HpCol => assert COLUMNS[4] == c;
    case P1JoinedCol => assert COLUMNS[5] == c;
    case P2IdCol => assert COLUMNS[6] == c;
    case P2HpCol => assert COLUMNS[7] == c;
    case P2JoinedCol => assert COLUMNS[8] == c;
    case WinnerCol => assert COLUMNS[9] == c;
    case ReasonCol => assert COLUMNS[10] == c;
    case StartedCol => assert COLUMNS[11] == c;
    case FinishedCol => assert COLUMNS[12] == c;
    case SnapshotAtCol => assert COLUMNS[13] == c;
  }

  // ------------------------------------------------------------------ the table

  function Upsert(rows: map<string, TableRow>, rec: TableRow): map<string, TableRow> {
    if rec.matchId == "" || rec.roomId == "" then rows
    else if rec.matchId !in rows || rec.snapshotAt >= rows[rec.matchId].snapshotAt then rows[rec.matchId := rec]
    else rows
  }

  class RoomsTable {
    var rows: map<string, TableRow>

    ghost predicate Valid()
      reads this
    {
      forall m :: m in rows ==> rows[m].matchId == m
    }

    method Save(rec: TableRow) returns (ok: bool)
      requires Valid()
      modifies this
      ensures Valid()
      ensures ok <==> rec.matchId != "" && rec.roomId != ""
      ensures rows == Upsert(old(rows), rec)
    {
      if rec.matchId == "" || rec.roomId == "" {
        return false;
      }
      if rec.matchId !in rows {
        rows := rows[rec.matchId := rec];
        return true;
      }
      var row := Overwrite(rows[rec.matchId], rec);
      rows := rows[rec.matchId := row];
      return true;
    }

    /** The write-back of a start: the refused rows one after the other. */
    method RejectSnapshots(refused: seq<TableRow>)
      requires Valid()
      modifies this
      ensures Valid() && rows == AfterSaves(old(rows), refused)
    {
      var left := refused;
      while left != []
        invariant Valid() && AfterSaves(rows, left) == AfterSaves(old(rows), refused)
        decreases |left|
      {
        var _ := Save(left[0]);
        left := left[1..];
      }
    }
  }

  /** The assignments of the statement one after the other, each seeing the row the ones before left. */
  method AssignColumns(start: TableRow, rec: TableRow, cols: seq<Column>) returns (row: TableRow)
    ensures row == AssignAll(start, rec, cols)
  {
    row := start;
    var left := cols;
    while left != []
      invariant AssignAll(row, rec, left) == AssignAll(start, rec, cols)
      decreases |left|
    {
      row := Assign(row, rec, left[0]);
      left := left[1..];
    }
  }

  /** The statement over an existing row of the same match. */
  method Overwrite(start: TableRow, rec: TableRow) returns (row: TableRow)
    requires start.matchId == rec.matchId
    ensures row == if rec.snapshotAt >= start.snapshotAt then rec else start
  {
    EveryColumn();
    var columns := COLUMNS;
    ColumnsMoveTogether(start, rec, columns);
    row := AssignColumns(start, rec, columns);
  }

  lemma EveryColumn()
    ensures forall c: Column :: c in COLUMNS
  {
    forall c: Column ensures c in COLUMNS {
      EveryColumnListed(c);
    }
  }

  function AfterSaves(rows: map<string, TableRow>, recs: seq<TableRow>): map<string, TableRow>
    decreases |recs|
  {
    if recs == [] then rows else AfterSaves(Upsert(rows, recs[0]), recs[1..])
  }

  /** `r` is the newest of the records saved for its match. */
  ghost predicate Newest(r: TableRow, recs: seq<TableRow>) {
    r in recs && forall s :: s in recs && s.matchId == r.matchId ==> s.snapshotAt <= r.snapshotAt
  }

  ghost predicate Savable(recs: seq<TableRow>) {
    forall r :: r in recs ==> r.matchId != "" && r.roomId != ""
  }

  lemma {:induction false} TableHoldsNewest(recs: seq<TableRow>, m: string)
    requires Savable(recs)
    ensures m in AfterSaves(map[], recs) <==> exists r :: r in recs && r.matchId == m
    ensures m in AfterSaves(map[], recs) ==>
      AfterSaves(map[], recs)[m].matchId == m && Newest(AfterSaves(map[], recs)[m], recs)
    decreases |recs|
  {
    if recs != [] {
      var before, last := recs[..|recs| - 1], recs[|recs| - 1];
      assert recs == before + [last];
      TableHoldsNewest(before, m);
      SavesSplit(map[], before, last);
      assert forall r :: r in recs <==> r in before || r == last;
    }
  }

  lemma {:induction false} SavesSplit(rows: map<string, TableRow>, recs: seq<TableRow>, last: TableRow)
    ensures AfterSaves(rows, recs + [last]) == Upsert(AfterSaves(rows, recs), last)
    decreases |recs|
  {
    if recs == [] {
      assert recs + [last] == [last] && [last][1..] == [];
    } else {
      assert (recs + [last])[1..] == recs[1..] + [last];
      SavesSplit(Upsert(rows, recs[0]), recs[1..], last);
    }
  }

  /** With different timestamps the table does not depend on the order the saves arrive in, nor on
      records arriving more than once. */
  lemma SaveOrderIrrelevant(recs: seq<TableRow>, other: seq<TableRow>)
    requires Savable(recs) && Savable(other)
    requires forall r :: r in recs <==> r in other
    requires forall r, s :: r in recs && s in recs && r.matchId == s.matchId && r.snapshotAt == s.snapshotAt ==> r == s
    ensures AfterSaves(map[], recs) == AfterSaves(map[], other)
  {
    var a, b := AfterSaves(map[], recs), AfterSaves(map[], other);
    forall m ensures m in a <==> m in b {
      TableHoldsNewest(recs, m);
      TableHoldsNewest(other, m);
    }
    forall m | m in a ensures a[m] == b[m] {
      TableHoldsNewest(recs, m);
      TableHoldsNewest(other, m);
    }
  }

  // ------------------------------------------------------------------ rows a start refuses

  predicate ScannedAtStart(row: TableRow) {
    !row.phase.Finished? && !row.phase.Aborted?
  }

  /** `after` says that the game of `row` was scrapped, now, and is as it was in all else. */
  predicate WrittenOff(row: TableRow, after: TableRow, now: int) {
    && after.phase.Aborted? && after.reason == Scrapped && after.winner == "" && after.snapshotAt == now
    && after.matchId == row.matchId && after.roomId == row.roomId && after.frame == row.frame
    && after.players == row.players && after.startedAt == row.startedAt && after.finishedAt == row.finishedAt
  }

  /** A refused row is written off, and left alone by the next start, exactly when the clock had reached the
      row's timestamp; otherwise it stays and is found again. */
  lemma RefusedRowIsSettled(rows: map<string, TableRow>, m: string, now: int)
    requires m in rows && rows[m].matchId == m && ScannedAtStart(rows[m])
    requires m != "" && rows[m].roomId != ""
    ensures var after := Upsert(rows, Refused(rows[m], now));
      && m in after
      && (!ScannedAtStart(after[m]) <==> now >= rows[m].snapshotAt)
      && (if now >= rows[m].snapshotAt then WrittenOff(rows[m], after[m], now) else after[m] == rows[m])
      && (forall k :: k in rows && k != m ==> k in after && after[k] == rows[k])
  {
  }

  /** The rows of different matches, each refused as it stands in the table. */
  ghost predicate RefusedFrom(rows: map<string, TableRow>, refused: seq<TableRow>, now: int) {
    && (forall i, j :: 0 <= i < j < |refused| ==> refused[i].matchId != refused[j].matchId)
    && (forall r :: r in refused ==>
          && r.matchId in rows && r.matchId != "" && rows[r.matchId].matchId == r.matchId
          && rows[r.matchId].roomId != "" && ScannedAtStart(rows[r.matchId])
          && r == Refused(rows[r.matchId], now))
  }

  /** The whole write-back: every refused row is written off exactly if the clock had reached its timestamp,
      and no other row changes. */
  lemma {:induction false} WriteBackSettles(rows: map<string, TableRow>, refused: seq<TableRow>, now: int, m: string)
    requires RefusedFrom(rows, refused, now) && m in rows
    ensures m in AfterSaves(rows, refused)
    ensures (exists r :: r in refused && r.matchId == m) ==>
      var after := AfterSaves(rows, refused)[m];
      && (!ScannedAtStart(after) <==> now >= rows[m].snapshotAt)
      && (if now >= rows[m].snapshotAt then WrittenOff(rows[m], after, now) else after == rows[m])
    ensures (forall r :: r in refused ==> r.matchId != m) ==> AfterSaves(rows, refused)[m] == rows[m]
    decreases |refused|
  {
    if refused != [] {
      var k, rest := refused[0].matchId, refused[1..];
      assert refused[0] in refused;
      RefusedRowIsSettled(rows, k, now);
      var after := Upsert(rows, refused[0]);
      forall r | r in rest ensures r in refused && r.matchId != k {
        var i :| 0 <= i < |rest| && rest[i] == r;
        assert refused[i + 1] == r;
      }
      assert RefusedFrom(after, rest, now);
      WriteBackSettles(after, rest, now, m);
      assert refused == [refused[0]] + rest;
    }
  }

  lemma FutureRowStays(row: TableRow, now: int)
    requires row.matchId != "" && row.roomId != "" && now < row.snapshotAt
    ensures Upsert(map[row.matchId := row], Refused(row, now)) == map[row.matchId := row]
  {
  }

  /** The row of the game alice left, stamped 32000, found by a start whose clock says 31000: refused,
      written back in vain, and scanned again by the next start. */
  lemma AliceRowIsScannedAgain() returns (rooms: seq<Room>)
    ensures IsRun(rooms, ALICE_LEAVES) && rooms[0] == NewRoom("r", "m", ["alice", "bob"], 1000) && TwoSeats(rooms[4])
    ensures var row := RecordOf(rooms[4], 32000);
      && ScannedAtStart(row)
      && ReadBack(Stored(row)) == Unusable(row, UnknownReason)
      && Upsert(map["m" := row], Refused(row, 31000)) == map["m" := row]
  {
    rooms := AliceLeftLosesBobsWin();
    FutureRowStays(RecordOf(rooms[4], 32000), 31000);
  }
}
