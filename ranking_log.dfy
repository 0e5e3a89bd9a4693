/** The leaderboard buffer (`Ranking_Log`): rows of (rank, user, count, name,
    e-mail) tagged with the kind of leaderboard, written as one worksheet per
    kind that has rows, in the order upload, download, delete. */
module RankingLogs {
  import opened Common
  import opened Sheets

  const RankingColumns: seq<string> := ["排名", "使用者", "次數", "姓名", "電子郵件"]

  /** The extra key that tags a row with its leaderboard. */
  const KindColumn: string := "類型"

  const SaveFailurePrefix: string := "保存排行榜日誌失敗: "
  const FilePrefix: string := "NAS_Ranking_Log_"

  /** One leaderboard's worksheet: the kind it selects, its sheet name and its title. */
  datatype Board = Board(kind: string, name: string, title: string)

  /** The worksheets `save_to_excel` may create, in the order it creates them. */
  const Boards: seq<Board> := [
    Board("upload", "上傳排行榜", "上傳次數排行榜"),
    Board("download", "下載排行榜", "下載次數排行榜"),
    Board("delete", "刪除排行榜", "刪除次數排行榜")]

  /** The row `add_log` appends: rank and count as decimal text, the rest as given. */
  function RankingEntry(kind: string, rank: int, username: Json, count: int, name: Json, email: Json): Entry
  {
    map["排名" := JStr(IntText(rank)), "使用者" := username, "次數" := JStr(IntText(count)),
        "姓名" := name, "電子郵件" := email, "類型" := JStr(kind)]
  }

  lemma RowOfFields(v1: Json, v2: Json, v3: Json, v4: Json, v5: Json, v6: Json)
    ensures var e := map["排名" := v1, "使用者" := v2, "次數" := v3, "姓名" := v4, "電子郵件" := v5, "類型" := v6];
      Row(e, RankingColumns) == [v1, v2, v3, v4, v5] && Get(e, KindColumn, JNull) == v6
  {
  }

  /** A stored row shows its five fields in column order and carries its kind;
      the rank and the count read back as the numbers given. */
  lemma RankingEntryFields(kind: string, rank: int, username: Json, count: int, name: Json, email: Json)
    ensures var e := RankingEntry(kind, rank, username, count, name, email);
      && Row(e, RankingColumns) == [JStr(IntText(rank)), username, JStr(IntText(count)), name, email]
      && KindOf(e) == JStr(kind)
    ensures forall r, c :: RankingEntry(kind, r, username, c, name, email) == RankingEntry(kind, rank, username, count, name, email)
                          ==> r == rank && c == count
  {
    RowOfFields(JStr(IntText(rank)), username, JStr(IntText(count)), name, email, JStr(kind));
    forall r, c | RankingEntry(kind, r, username, c, name, email) == RankingEntry(kind, rank, username, count, name, email)
      ensures r == rank && c == count
    {
      RowOfFields(JStr(IntText(r)), username, JStr(IntText(c)), name, email, JStr(kind));
      IntTextInjective(r, rank);
      IntTextInjective(c, count);
    }
  }

  /** The kind column of a row (NaN when the row lacks it). */
  function KindOf(e: Entry): Json
  {
    Get(e, KindColumn, JNull)
  }

  /** `df[df["類型"] == kind]`: the rows of one kind, in buffer order. */
  function OfKind(logs: seq<Entry>, kind: string): (rows: seq<Entry>)
    ensures |rows| <= |logs|
  {
    if logs == [] then []
    else
      var last := logs[|logs| - 1];
      OfKind(logs[..|logs| - 1], kind) + if KindOf(last) == JStr(kind) then [last] else []
  }

  /** Selecting distributes over concatenation: the rows keep their buffer order. */
  lemma {:induction false} OfKindAppend(a: seq<Entry>, b: seq<Entry>, kind: string)
    ensures OfKind(a + b, kind) == OfKind(a, kind) + OfKind(b, kind)
    decreases |b|
  {
    if b == [] {
      assert a + b == a;
    } else {
      assert (a + b)[..|a + b| - 1] == a + b[..|b| - 1];
      OfKindAppend(a, b[..|b| - 1], kind);
    }
  }

  /** The selected rows are exactly the rows of that kind. */
  lemma {:induction false} OfKindMembers(logs: seq<Entry>, kind: string)
    ensures forall e :: e in OfKind(logs, kind) <==> e in logs && KindOf(e) == JStr(kind)
  {
    if logs != [] {
      var init := logs[..|logs| - 1];
      OfKindMembers(init, kind);
      assert logs == init + [logs[|logs| - 1]];
    }
  }

  /** Row 1 of a leaderboard: its title in A1, merged over A1:E1. */
  function TitleRow(title: string): seq<Json>
  {
    [JStr(title), JNull, JNull, JNull, JNull]
  }

  /** The worksheet of one leaderboard: title, header on row 2, then its rows from row 3. */
  function BoardSheet(board: Board, rows: seq<Entry>): Sheet
  {
    Sheet(board.name, [TitleRow(board.title), Header(RankingColumns)] + Rows(rows, RankingColumns))
  }

  /** The sheets of the first `t` leaderboards that have rows. */
  function BooksUpTo(logs: seq<Entry>, t: nat): Workbook
    requires t <= |Boards|
  {
    if t == 0 then []
    else
      var board := Boards[t - 1];
      var rows := OfKind(logs, board.kind);
      BooksUpTo(logs, t - 1) + if rows == [] then [] else [BoardSheet(board, rows)]
  }

  /** The workbook `save_to_excel` writes. */
  function RankingBook(logs: seq<Entry>): Workbook
  {
    BooksUpTo(logs, |Boards|)
  }

  /** The sheet a leaderboard contributes: none when it has no rows. */
  function SheetsOf(logs: seq<Entry>, b: nat): seq<Sheet>
    requires b < |Boards|
  {
    var rows := OfKind(logs, Boards[b].kind);
    if rows == [] then [] else [BoardSheet(Boards[b], rows)]
  }

  lemma RankingBookUnfold(logs: seq<Entry>)
    ensures RankingBook(logs) == SheetsOf(logs, 0) + SheetsOf(logs, 1) + SheetsOf(logs, 2)
  {
    assert BooksUpTo(logs, 1) == SheetsOf(logs, 0);
    assert BooksUpTo(logs, 2) == BooksUpTo(logs, 1) + SheetsOf(logs, 1);
    assert BooksUpTo(logs, 3) == BooksUpTo(logs, 2) + SheetsOf(logs, 2);
  }

  /** The three sheet names differ. */
  lemma BoardNamesDistinct(b: nat, c: nat)
    requires b < |Boards| && c < |Boards| && Boards[b].name == Boards[c].name
    ensures b == c
  {
    assert Boards[0].name[0] == '上' && Boards[1].name[0] == '下' && Boards[2].name[0] == '刪';
  }

  /** A sheet of the workbook named after a leaderboard is that leaderboard's. */
  lemma SheetInBookIsOwn(logs: seq<Entry>, b: nat)
    requires b < |Boards|
    requires BoardSheet(Boards[b], OfKind(logs, Boards[b].kind)) in RankingBook(logs)
    ensures OfKind(logs, Boards[b].kind) != []
  {
    RankingBookUnfold(logs);
    var sheet := BoardSheet(Boards[b], OfKind(logs, Boards[b].kind));
    var c: nat :| c < |Boards| && sheet in SheetsOf(logs, c);
    BoardNamesDistinct(b, c);
  }

  /** The workbook has a sheet for a leaderboard exactly when some row has its
      kind, and that sheet lists those rows in buffer order. */
  lemma RankingBookSheets(logs: seq<Entry>, b: nat)
    requires b < |Boards|
    ensures (exists e :: e in logs && KindOf(e) == JStr(Boards[b].kind))
            <==> BoardSheet(Boards[b], OfKind(logs, Boards[b].kind)) in RankingBook(logs)
  {
    OfKindMembers(logs, Boards[b].kind);
    var rows := OfKind(logs, Boards[b].kind);
    var sheet := BoardSheet(Boards[b], rows);
    if rows != [] {
      assert rows[0] in rows;
      RankingBookUnfold(logs);
      assert sheet in SheetsOf(logs, b);
    }
    if sheet in RankingBook(logs) {
      SheetInBookIsOwn(logs, b);
    }
  }

  /** A row of a kind no leaderboard shows never reaches the workbook. */
  lemma {:induction false} UnlistedKindIgnored(logs: seq<Entry>, e: Entry, t: nat)
    requires t <= |Boards|
    requires forall b :: 0 <= b < |Boards| ==> KindOf(e) != JStr(Boards[b].kind)
    ensures BooksUpTo(logs + [e], t) == BooksUpTo(logs, t)
  {
    if t > 0 {
      UnlistedKindIgnored(logs, e, t - 1);
      var kind := Boards[t - 1].kind;
      assert KindOf(e) != JStr(kind);
      OfKindAppend(logs, [e], kind);
      assert [e][..0] == [];
      assert OfKind([e], kind) == [];
      assert OfKind(logs + [e], kind) == OfKind(logs, kind);
    }
  }

  /** `df[df["類型"] == kind]`, as the loop a DataFrame filter performs. */
  method SelectKind(logs: seq<Entry>, kind: string) returns (rows: seq<Entry>)
    ensures rows == OfKind(logs, kind)
  {
    rows := [];
    for i := 0 to |logs|
      invariant rows == OfKind(logs[..i], kind)
    {
      assert logs[..i + 1][..i] == logs[..i];
      if KindOf(logs[i]) == JStr(kind) {
        rows := rows + [logs[i]];
      }
    }
    assert logs[..|logs|] == logs;
  }

  /** Filling one leaderboard's worksheet cell row by cell row. */
  method RenderBoard(board: Board, rows: seq<Entry>) returns (sheet: Sheet)
    ensures sheet == BoardSheet(board, rows)
  {
    var cells := [TitleRow(board.title), Header(RankingColumns)];
    for j := 0 to |rows|
      invariant cells == [TitleRow(board.title), Header(RankingColumns)] + Rows(rows[..j], RankingColumns)
    {
      assert Rows(rows[..j + 1], RankingColumns) == Rows(rows[..j], RankingColumns) + [Row(rows[j], RankingColumns)];
      cells := cells + [Row(rows[j], RankingColumns)];
    }
    assert rows[..|rows|] == rows;
    sheet := Sheet(board.name, cells);
  }

  /** The loop of `save_to_excel` over the leaderboards, skipping those without rows. */
  method BuildBook(logs: seq<Entry>) returns (book: Workbook)
    ensures book == RankingBook(logs)
  {
    book := [];
    for t := 0 to |Boards|
      invariant book == BooksUpTo(logs, t)
    {
      var board := Boards[t];
      var rows := SelectKind(logs, board.kind);
      if rows == [] {
        continue;
      }
      var sheet := RenderBoard(board, rows);
      book := book + [sheet];
    }
  }

  class RankingLog {
    var logs: seq<Entry>
    const logFile: string

    /** A new, empty buffer named after the second it was created in. */
    constructor(home: string, now: Clock)
      ensures logs == [] && logFile == LogPath(home, FilePrefix, now)
    {
      logs := [];
      logFile := LogPath(home, FilePrefix, now);
    }

    /** `add_log`: appends one leaderboard row. */
    method AddLog(kind: string, rank: int, username: Json, count: int, name: Json, email: Json)
      modifies this
      ensures logs == old(logs) + [RankingEntry(kind, rank, username, count, name, email)]
    {
      logs := logs + [RankingEntry(kind, rank, username, count, name, email)];
    }

    /** `save_to_excel`: one worksheet per leaderboard with rows, then the usual
        save protocol. */
    method SaveToExcel(outcome: WriteResult) returns (r: Result<bool, Error>, attempted: Option<Workbook>)
      modifies this
      ensures SaveEffect(r, logs, attempted) == SaveStep(old(logs), RankingBook(old(logs)), SaveFailurePrefix, outcome)
    {
      if logs == [] {
        return Success(false), None;
      }
      var book := BuildBook(logs);
      attempted := Some(book);
      match outcome
      case Written =>
        logs := [];
        r := Success(true);
      case WriteFailed(reason) =>
        r := Failure(Raised(SaveFailurePrefix + reason));
    }
  }
}
