/** The system-log buffer (`System_Log`): it normalises raw system records into
    rows over five fixed columns, keeps them in arrival order, and writes them to
    a time-stamped workbook on the Desktop, clearing itself only when the write
    succeeds. */
module SystemLogs {
  import opened Common
  import opened Sheets

  const PriorityMapping: map<string, string> := map["info" := "資訊", "warn" := "警告", "error" := "錯誤"]

  /** The label for a level or an event the mappings do not know. */
  const UnknownEvent: string := "未知事件"

  const SystemColumns: seq<string> := ["優先層級", "日誌", "時間", "使用者", "事件"]

  /** The keys a raw record must have, in the order they are checked. */
  const RequiredKeys: seq<string> := ["level", "time", "who", "descr"]

  const MissingItem: string := "項目遺失: "
  const AddFailurePrefix: string := "添加日誌失敗: "
  const SaveFailurePrefix: string := "保存日誌失敗: "
  const FilePrefix: string := "NAS_System_Log_"

  /** Every exception inside `add_log` is re-raised with the same prefix. */
  function AddFailure(text: string): Error
  {
    Raised(AddFailurePrefix + text)
  }

  /** `map_priority`: the Chinese label of a level, whatever its case. */
  function MapPriority(level: string): (shown: string)
    ensures Lower(level) == "info" ==> shown == "資訊"
    ensures Lower(level) == "warn" ==> shown == "警告"
    ensures Lower(level) == "error" ==> shown == "錯誤"
    ensures Lower(level) !in PriorityMapping <==> shown == UnknownEvent
  {
    var key := Lower(level);
    if key in PriorityMapping then PriorityMapping[key] else UnknownEvent
  }

  /** Only the case of a level matters to its label. */
  lemma MapPriorityIgnoresCase(level: string)
    ensures MapPriority(level) == MapPriority(Lower(level))
  {
    LowerIdempotent(level);
  }

  /** The row `add_log` builds once every required key is present and the level is a string. */
  function Normalised(log: Record, level: string): Entry
    requires "time" in log && "who" in log && "descr" in log
  {
    map["優先層級" := JStr(MapPriority(level)), "日誌" := JStr("System"),
        "時間" := log["time"], "使用者" := log["who"], "事件" := log["descr"]]
  }

  /** The record has every required key. */
  predicate Complete(log: Record)
  {
    "level" in log && "time" in log && "who" in log && "descr" in log
  }

  lemma CompleteIffNoneMissing(log: Record)
    ensures FirstMissing(log, RequiredKeys).None? <==> Complete(log)
  {
    assert RequiredKeys[0] == "level" && RequiredKeys[1] == "time";
    assert RequiredKeys[2] == "who" && RequiredKeys[3] == "descr";
  }

  /** `add_log` on one raw record: the row it appends, or the exception it raises.
      A missing key is reported by the KeyError's text (its repr, in quotes); a
      level that is not a string fails at `.lower()`. */
  function SystemEntry(log: Record): (r: Result<Entry, Error>)
    ensures r.Success? <==> Complete(log) && log["level"].JStr?
    ensures FirstMissing(log, RequiredKeys).Some? ==>
      r == Failure(AddFailure(KeyErrorText(MissingItem + FirstMissing(log, RequiredKeys).value)))
    ensures Complete(log) && !log["level"].JStr? ==>
      r == Failure(AddFailure(NoLowerMessage(log["level"])))
    ensures r.Success? ==>
      && Complete(log)
      && r.value.Keys == {"優先層級", "日誌", "時間", "使用者", "事件"}
      && r.value["優先層級"] == JStr(MapPriority(log["level"].s))
      && r.value["日誌"] == JStr("System")
      && r.value["時間"] == log["time"] && r.value["使用者"] == log["who"] && r.value["事件"] == log["descr"]
  {
    CompleteIffNoneMissing(log);
    match FirstMissing(log, RequiredKeys)
    case Some(key) => Failure(AddFailure(KeyErrorText(MissingItem + key)))
    case None =>
      match log["level"]
      case JStr(level) => Success(Normalised(log, level))
      case other => Failure(AddFailure(NoLowerMessage(other)))
  }

  /** A stored row fills every column of the sheet, each with its own field. */
  lemma SavedRowOfEntry(log: Record)
    requires Complete(log) && log["level"].JStr?
    ensures SystemEntry(log).Success?
    ensures Row(SystemEntry(log).value, SystemColumns)
      == [JStr(MapPriority(log["level"].s)), JStr("System"), log["time"], log["who"], log["descr"]]
  {
    var row := Row(SystemEntry(log).value, SystemColumns);
    assert row[0] == JStr(MapPriority(log["level"].s));
    assert row[1] == JStr("System");
  }

  /** A missing key is reported before the level is looked at, in the order
      level, time, who, descr. */
  lemma MissingKeyReported(log: Record)
    requires "level" in log && "time" !in log
    ensures SystemEntry(log) == Failure(Raised("添加日誌失敗: '項目遺失: time'"))
  {
    assert FirstMissing(log, RequiredKeys) == Some("time") by {
      FirstMissingAt(log, RequiredKeys, 1);
    }
    assert AddFailurePrefix + KeyErrorText(MissingItem + "time") == "添加日誌失敗: '項目遺失: time'";
  }

  /** The workbook `save_to_file` writes for a buffer. */
  function SystemBook(logs: seq<Entry>): Workbook
  {
    Frame(logs, SystemColumns)
  }

  class SystemLog {
    var logs: seq<Entry>
    const logFile: string

    /** A new, empty buffer named after the second it was created in. */
    constructor(home: string, now: Clock)
      ensures logs == [] && logFile == LogPath(home, FilePrefix, now)
    {
      logs := [];
      logFile := LogPath(home, FilePrefix, now);
    }

    /** `add_log`: checks the required keys in order, then appends the row;
        on an exception the buffer is unchanged. */
    method AddLog(log: Record) returns (err: Option<Error>)
      modifies this
      ensures match SystemEntry(log)
        case Success(entry) => err.None? && logs == old(logs) + [entry]
        case Failure(e) => err == Some(e) && logs == old(logs)
    {
      for i := 0 to |RequiredKeys|
        invariant forall j :: 0 <= j < i ==> RequiredKeys[j] in log
      {
        if RequiredKeys[i] !in log {
          FirstMissingAt(log, RequiredKeys, i);
          err := Some(AddFailure(KeyErrorText(MissingItem + RequiredKeys[i])));
          return;
        }
      }
      assert RequiredKeys[0] == "level" && RequiredKeys[1] == "time";
      assert RequiredKeys[2] == "who" && RequiredKeys[3] == "descr";
      match log["level"]
      case JStr(level) =>
        logs := logs + [Normalised(log, level)];
        err := None;
      case other =>
        err := Some(AddFailure(NoLowerMessage(other)));
    }

    /** `save_to_file`: the buffer as one sheet under the five columns. */
    method SaveToFile(outcome: WriteResult) returns (r: Result<bool, Error>, attempted: Option<Workbook>)
      modifies this
      ensures SaveEffect(r, logs, attempted) == SaveStep(old(logs), SystemBook(old(logs)), SaveFailurePrefix, outcome)
    {
      if logs == [] {
        return Success(false), None;
      }
      attempted := Some(SystemBook(logs));
      match outcome
      case Written =>
        logs := [];
        r := Success(true);
      case WriteFailed(reason) =>
        r := Failure(Raised(SaveFailurePrefix + reason));
    }
  }

  /** The key a loop over `keys` stops at is the one FirstMissing reports. */
  lemma FirstMissingAt(d: map<string, Json>, keys: seq<string>, i: nat)
    requires i < |keys| && keys[i] !in d
    requires forall j :: 0 <= j < i ==> keys[j] in d
    ensures FirstMissing(d, keys) == Some(keys[i])
  {
    var r := FirstMissing(d, keys);
    assert r.Some?;
    var k :| 0 <= k < |keys| && keys[k] == r.value && r.value !in d
             && forall j :: 0 <= j < k ==> keys[j] in d;
    assert k == i;
  }
}
