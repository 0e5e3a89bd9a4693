/** The File Station log buffer (`FilesStation_Log`): it normalises raw file
    events into rows over eight fixed columns, filling a missing field with
    "N/A", and writes them to a time-stamped workbook on the Desktop. */
module FileStationLogs {
  import opened Common
  import opened Sheets

  const EventMapping: map<string, string> := map[
    "upload" := "上傳", "download" := "下載", "delete" := "刪除",
    "rename" := "重新命名", "move" := "移動", "copy" := "複製",
    "create folder" := "建立資料夾", "extract" := "解壓縮",
    "compress" := "壓縮", "property set" := "設定屬性"]

  /** The label for an event the mapping does not know. */
  const UnknownEvent: string := "未知事件"

  const FileStationColumns: seq<string> := ["日誌", "時間", "IP位址", "使用者", "事件", "檔案/資料夾", "檔案大小", "檔案名稱"]

  /** What a field the record lacks is shown as. */
  const NA: Json := JStr("N/A")

  const AddFailurePrefix: string := "添加日誌失敗: "
  const SaveFailurePrefix: string := "保存日誌失敗: "
  const FilePrefix: string := "NAS_Filestation_Log_"

  /** `map_event`: the Chinese label of a command, whatever its case. */
  function MapEvent(cmd: string): (shown: string)
    ensures Lower(cmd) in EventMapping ==> shown == EventMapping[Lower(cmd)]
    ensures Lower(cmd) !in EventMapping <==> shown == UnknownEvent
  {
    var key := Lower(cmd);
    if key in EventMapping then EventMapping[key] else UnknownEvent
  }

  /** Only the case of a command matters to its label. */
  lemma MapEventIgnoresCase(cmd: string)
    ensures MapEvent(cmd) == MapEvent(Lower(cmd))
  {
    LowerIdempotent(cmd);
  }

  /** The record marks a folder: `str(isdir).lower() == "true"`, "False" when absent. */
  predicate IsFolder(log: Record)
  {
    Lower(PyStr(Get(log, "isdir", JStr("False")))) == "true"
  }

  /** The flag is read through `str()`: a boolean true or the text "true" in any
      case marks a folder; a missing flag, the number 1 or other text do not. */
  lemma FolderFlags(log: Record)
    ensures "isdir" !in log ==> !IsFolder(log)
    ensures Get(log, "isdir", JNull) == JBool(true) ==> IsFolder(log)
    ensures Get(log, "isdir", JNull) == JBool(false) ==> !IsFolder(log)
    ensures Get(log, "isdir", JNull) == JStr("TRUE") ==> IsFolder(log)
    ensures Get(log, "isdir", JNull) == JInt(1) ==> !IsFolder(log)
  {
    if "isdir" !in log {
      assert Lower("False")[0] == 'f';
    }
    if Get(log, "isdir", JNull) == JBool(true) {
      assert Lower("True") == "true";
    }
    if Get(log, "isdir", JNull) == JBool(false) {
      assert Lower("False")[0] == 'f';
    }
    if Get(log, "isdir", JNull) == JStr("TRUE") {
      assert Lower("TRUE") == "true";
    }
    if Get(log, "isdir", JNull) == JInt(1) {
      assert PyStr(JInt(1)) == NatText(1) == "1";
    }
  }

  /** The row `add_log` builds for a record whose command is the string `cmd`. */
  function Normalised(log: Record, cmd: string): Entry
  {
    map["日誌" := JStr("FileStation"),
        "時間" := Get(log, "time", NA),
        "IP位址" := Get(log, "ip", NA),
        "使用者" := Get(log, "username", NA),
        "事件" := JStr(MapEvent(cmd)),
        "檔案/資料夾" := JStr(if IsFolder(log) then "資料夾" else "檔案"),
        "檔案大小" := Get(log, "filesize", NA),
        "檔案名稱" := Get(log, "descr", NA)]
  }

  /** `add_log` on one raw record: the row it appends, or the exception it raises.
      Only a command that is present and not a string can fail, at `.lower()`. */
  function FileStationEntry(log: Record): (r: Result<Entry, Error>)
    ensures r.Failure? <==> !Get(log, "cmd", NA).JStr?
    ensures r.Failure? ==> "cmd" in log && r.error == Raised(AddFailurePrefix + NoLowerMessage(log["cmd"]))
    ensures r.Success? ==> r.value == Normalised(log, Get(log, "cmd", NA).s)
  {
    match Get(log, "cmd", NA)
    case JStr(cmd) => Success(Normalised(log, cmd))
    case other => Failure(Raised(AddFailurePrefix + NoLowerMessage(other)))
  }

  /** A normalised row has exactly the eight columns of the sheet. */
  lemma NormalisedColumns(log: Record, cmd: string)
    ensures Normalised(log, cmd).Keys == set c | c in FileStationColumns
  {
  }

  /** Each column of a normalised row holds its own field of the record, "N/A"
      where the record lacks it; the event is the command's label and the kind
      says whether the record marks a folder. */
  lemma NormalisedFields(log: Record, cmd: string)
    ensures Row(Normalised(log, cmd), FileStationColumns)
      == [JStr("FileStation"), Get(log, "time", NA), Get(log, "ip", NA), Get(log, "username", NA),
          JStr(MapEvent(cmd)), JStr(if IsFolder(log) then "資料夾" else "檔案"),
          Get(log, "filesize", NA), Get(log, "descr", NA)]
  {
    RowOfFields(JStr("FileStation"), Get(log, "time", NA), Get(log, "ip", NA), Get(log, "username", NA),
                JStr(MapEvent(cmd)), JStr(if IsFolder(log) then "資料夾" else "檔案"),
                Get(log, "filesize", NA), Get(log, "descr", NA));
  }

  lemma RowOfFields(v1: Json, v2: Json, v3: Json, v4: Json, v5: Json, v6: Json, v7: Json, v8: Json)
    ensures Row(map["日誌" := v1, "時間" := v2, "IP位址" := v3, "使用者" := v4, "事件" := v5,
                    "檔案/資料夾" := v6, "檔案大小" := v7, "檔案名稱" := v8], FileStationColumns)
      == [v1, v2, v3, v4, v5, v6, v7, v8]
  {
  }

  /** A record without a command is kept, as an unknown event. */
  lemma MissingCommandIsUnknown(log: Record)
    requires "cmd" !in log
    ensures FileStationEntry(log).Success?
    ensures FileStationEntry(log).value["事件"] == JStr(UnknownEvent)
  {
    assert Lower("N/A") == "n/a";
    assert "n/a" !in EventMapping;
    assert Normalised(log, "N/A")["事件"] == JStr(UnknownEvent);
  }

  /** An empty record becomes a row of "N/A" fields: an unknown event on a file. */
  lemma EmptyRecordRow()
    ensures FileStationEntry(map[]).Success?
    ensures Row(FileStationEntry(map[]).value, FileStationColumns)
      == [JStr("FileStation"), NA, NA, NA, JStr(UnknownEvent), JStr("檔案"), NA, NA]
  {
    MissingCommandIsUnknown(map[]);
    FolderFlags(map[]);
    NormalisedFields(map[], "N/A");
  }

  /** The workbook `save_to_file` writes for a buffer. */
  function FileStationBook(logs: seq<Entry>): Workbook
  {
    Frame(logs, FileStationColumns)
  }

  class FileStationLog {
    var logs: seq<Entry>
    const logFile: string

    /** A new, empty buffer named after the second it was created in. */
    constructor(home: string, now: Clock)
      ensures logs == [] && logFile == LogPath(home, FilePrefix, now)
    {
      logs := [];
      logFile := LogPath(home, FilePrefix, now);
    }

    /** `add_log`: appends the normalised row; on an exception the buffer is unchanged. */
    method AddLog(log: Record) returns (err: Option<Error>)
      modifies this
      ensures match FileStationEntry(log)
        case Success(entry) => err.None? && logs == old(logs) + [entry]
        case Failure(e) => err == Some(e) && logs == old(logs)
    {
      var entry := FileStationEntry(log);
      match entry
      case Success(row) =>
        logs := logs + [row];
        err := None;
      case Failure(e) =>
        err := Some(e);
    }

    /** `save_to_file`: the buffer as one sheet under the eight columns. */
    method SaveToFile(outcome: WriteResult) returns (r: Result<bool, Error>, attempted: Option<Workbook>)
      modifies this
      ensures SaveEffect(r, logs, attempted) == SaveStep(old(logs), FileStationBook(old(logs)), SaveFailurePrefix, outcome)
    {
      if logs == [] {
        return Success(false), None;
      }
      attempted := Some(FileStationBook(logs));
      match outcome
      case Written =>
        logs := [];
        r := Success(true);
      case WriteFailed(reason) =>
        r := Failure(Raised(SaveFailurePrefix + reason));
    }
  }
}
