/** The filtering half of the log window's `fetch_logs`: the date range read from
    the current tab's date fields, which tabs are fetched, and the three loops that
    keep the records of a fetched page list whose time parses, falls in the range
    and matches the selected category, refilling the tab's buffer as they go.
    Any exception in a loop ends `fetch_logs` with an error box. */
module Filters {
  import opened Common
  import opened Inputs
  import SystemLogs
  import FileStationLogs

  // ---------------------------------------------------------------- date range

  /** Chronological order of dates, as Python compares `date` objects. */
  predicate DateLe(a: Date, b: Date)
  {
    a.year < b.year || (a.year == b.year && (a.month < b.month || (a.month == b.month && a.day <= b.day)))
  }

  /** The date bounds of a search; a field left empty gives no bound. */
  datatype Range = Range(start: Option<Date>, end: Option<Date>)

  const BadStart: string := "開始日期格式無效"
  const BadEnd: string := "結束日期格式無效"
  const StartAfterEnd: string := "開始日期不能晚於結束日期"

  /** The date checks at the start of `fetch_logs`: each non-empty field must pass
      `validate_date`, and the start may not come after the end. */
  function DateRange(startText: string, endText: string): (r: Result<Range, string>)
    ensures startText != "" && !ValidateDate(startText) ==> r == Failure(BadStart)
    ensures (startText == "" || ValidateDate(startText)) && endText != "" && !ValidateDate(endText) ==> r == Failure(BadEnd)
    ensures r.Failure? && r.error == StartAfterEnd ==>
      ParseDate(startText).Some? && ParseDate(endText).Some? && !DateLe(ParseDate(startText).value, ParseDate(endText).value)
    ensures r.Success? ==>
      && (r.value.start.Some? <==> startText != "") && (r.value.end.Some? <==> endText != "")
      && (startText != "" ==> r.value.start == ParseDate(startText))
      && (endText != "" ==> r.value.end == ParseDate(endText))
      && (r.value.start.Some? && r.value.end.Some? ==> DateLe(r.value.start.value, r.value.end.value))
    ensures (startText == "" || ValidateDate(startText)) && (endText == "" || ValidateDate(endText))
            && (startText != "" && endText != "" ==> DateLe(ParseDate(startText).value, ParseDate(endText).value))
            ==> r.Success?
  {
    if startText != "" && !ValidateDate(startText) then Failure(BadStart)
    else
      var start := if startText != "" then ParseDate(startText) else None;
      if endText != "" && !ValidateDate(endText) then Failure(BadEnd)
      else
        var end := if endText != "" then ParseDate(endText) else None;
        if start.Some? && end.Some? && !DateLe(start.value, end.value) then Failure(StartAfterEnd)
        else Success(Range(start, end))
  }

  /** `date_match`: with either bound missing every date matches. */
  predicate InRange(range: Range, t: Date)
  {
    range.start.None? || range.end.None? || (DateLe(range.start.value, t) && DateLe(t, range.end.value))
  }

  /** A one-sided range filters nothing: both bounds are needed. */
  lemma OneBoundFiltersNothing(start: Date, t: Date)
    ensures InRange(Range(Some(start), None), t) && InRange(Range(None, Some(start)), t)
  {
  }

  // ---------------------------------------------------------------- tabs

  datatype Tab = SystemTab | FileStationTab | RankingsTab

  /** What `fetch_logs` sets out to do: stop with a warning, or fetch some tabs. */
  datatype Plan = Warn(message: string) | Fetch(range: Range, tabs: seq<Tab>)

  /** The start and end date fields of one tab. */
  datatype DateFields = DateFields(start: string, end: string)

  /** `is_initial_load`: all six date fields empty and no category chosen. Any search,
      not only the first one, that meets this fetches every tab. */
  predicate IsInitialLoad(system: DateFields, fileStation: DateFields, rankings: DateFields,
                          priority: Option<string>, event: Option<string>)
  {
    && system.start == "" && fileStation.start == "" && rankings.start == ""
    && system.end == "" && fileStation.end == "" && rankings.end == ""
    && priority.None? && event.None?
  }

  /** The fields of the current tab: tab 0, tab 1, and any other index the rankings tab. */
  function CurrentFields(current: int, system: DateFields, fileStation: DateFields, rankings: DateFields): DateFields
  {
    if current == 0 then system else if current == 1 then fileStation else rankings
  }

  /** The date checks and tabs of one search: the current tab's fields give the
      range; a search with every field empty and no category fetches every tab,
      any other only the current one. */
  function FetchPlan(current: int, system: DateFields, fileStation: DateFields, rankings: DateFields,
                     priority: Option<string>, event: Option<string>): (p: Plan)
    ensures var f := CurrentFields(current, system, fileStation, rankings);
      && (DateRange(f.start, f.end).Failure? <==> p.Warn?)
      && (p.Warn? ==> p.message == DateRange(f.start, f.end).error)
      && (p.Fetch? ==> p.range == DateRange(f.start, f.end).value)
    ensures var all := IsInitialLoad(system, fileStation, rankings, priority, event);
      && (p.Fetch? ==> (SystemTab in p.tabs <==> all || current == 0))
      && (p.Fetch? ==> (FileStationTab in p.tabs <==> all || current == 1))
      && (p.Fetch? ==> (RankingsTab in p.tabs <==> all || current == 2))
  {
    var all := IsInitialLoad(system, fileStation, rankings, priority, event);
    var f := CurrentFields(current, system, fileStation, rankings);
    match DateRange(f.start, f.end)
    case Failure(message) => Warn(message)
    case Success(range) =>
      Fetch(range, (if all || current == 0 then [SystemTab] else [])
                   + (if all || current == 1 then [FileStationTab] else [])
                   + (if all || current == 2 then [RankingsTab] else []))
  }

  /** With every field empty and no category chosen, all three tabs are fetched,
      with no date bound. */
  lemma InitialLoadFetchesEveryTab(current: int, system: DateFields, fileStation: DateFields, rankings: DateFields,
                                   priority: Option<string>, event: Option<string>)
    requires IsInitialLoad(system, fileStation, rankings, priority, event)
    ensures FetchPlan(current, system, fileStation, rankings, priority, event)
         == Fetch(Range(None, None), [SystemTab, FileStationTab, RankingsTab])
  {
  }

  /** A search with some date filled in, even the first one, fetches only the current
      tab (nothing for an index no tab has). */
  lemma FilledFieldFetchesCurrentTab(current: int, system: DateFields, fileStation: DateFields, rankings: DateFields,
                                     priority: Option<string>, event: Option<string>)
    requires system.start != "" || system.end != "" || fileStation.start != "" || fileStation.end != ""
             || rankings.start != "" || rankings.end != ""
    ensures var p := FetchPlan(current, system, fileStation, rankings, priority, event);
      p.Fetch? ==> p.tabs == if current == 0 then [SystemTab] else if current == 1 then [FileStationTab]
                             else if current == 2 then [RankingsTab] else []
  {
  }

  /** A start after the end is refused before anything is fetched. */
  lemma StartAfterEndFetchesNothing(current: int, system: DateFields, fileStation: DateFields, rankings: DateFields,
                                    priority: Option<string>, event: Option<string>)
    requires var f := CurrentFields(current, system, fileStation, rankings);
      ValidateDate(f.start) && ValidateDate(f.end) && !DateLe(ParseDate(f.start).value, ParseDate(f.end).value)
    ensures FetchPlan(current, system, fileStation, rankings, priority, event) == Warn(StartAfterEnd)
  {
  }

  // ---------------------------------------------------------------- the three loops

  /** Which loop: the system tab, the File Station tab, or the rankings tab
      (File Station records, no category, no buffer). */
  datatype Pass = SystemPass | FileStationPass | RankingPass

  /** The search settings a loop reads; `parse` is `pd.to_datetime(...).date()`,
      None where it fails. */
  datatype Filter = Filter(range: Range, priority: Option<string>, event: Option<string>, parse: Json -> Option<Date>)

  /** `format_date`: a falsy time gives no date without being parsed. */
  function FormatDate(parse: Json -> Option<Date>, time: Json): Option<Date>
  {
    if !Truthy(time) then None else parse(time)
  }

  /** `not selected or label == selected`. */
  predicate Chosen(selected: Option<string>, category: string)
  {
    selected.None? || selected.value == "" || category == selected.value
  }

  /** The category boxes: choosing "全部" (all) clears the selection. */
  function Selection(choice: string): Option<string>
  {
    if choice == "全部" then None else Some(choice)
  }

  /** "全部" keeps every category; any other choice keeps only its own. */
  lemma SelectionMeaning(choice: string, category: string)
    ensures choice == "全部" ==> Chosen(Selection(choice), category)
    ensures choice != "全部" && choice != "" ==> (Chosen(Selection(choice), category) <==> category == choice)
  {
  }

  /** The state of a loop: the tab's buffer, the rows shown in its table, and the
      exception that ended the loop, if one did. */
  datatype Scan = Scan(logs: seq<Entry>, shown: seq<Entry>, error: Option<Error>)

  const Clean: Scan := Scan([], [], None)

  /** The File Station row a table shows, read with `log[key]`. */
  function ShownFileRow(log: Record, event: string): Entry
    requires "time" in log && "ip" in log && "username" in log && "isdir" in log && "filesize" in log && "descr" in log
  {
    map["日誌" := JStr("FileStation"), "時間" := log["time"], "IP位址" := log["ip"],
        "使用者" := log["username"], "事件" := JStr(event),
        "檔案/資料夾" := JStr(if Lower(PyStr(log["isdir"])) == "true" then "資料夾" else "檔案"),
        "檔案大小" := log["filesize"], "檔案名稱" := log["descr"]]
  }

  /** The keys the File Station table row reads after `add_log`, in order. */
  const ShownKeys: seq<string> := ["time", "ip", "username", "isdir", "filesize", "descr"]

  /** The keys the rankings row reads before and after the command. */
  const RankingKeysBefore: seq<string> := ["time", "ip", "username", "cmd"]
  const RankingKeysAfter: seq<string> := ["isdir", "filesize", "descr"]

  lemma ShownKeysPresent(log: Record)
    requires FirstMissing(log, ShownKeys).None?
    ensures "time" in log && "ip" in log && "username" in log && "isdir" in log && "filesize" in log && "descr" in log
  {
    assert ShownKeys[0] == "time" && ShownKeys[1] == "ip" && ShownKeys[2] == "username";
    assert ShownKeys[3] == "isdir" && ShownKeys[4] == "filesize" && ShownKeys[5] == "descr";
  }

  lemma RankingKeysPresent(log: Record)
    requires FirstMissing(log, RankingKeysBefore).None? && FirstMissing(log, RankingKeysAfter).None?
    ensures "time" in log && "ip" in log && "username" in log && "cmd" in log
    ensures "isdir" in log && "filesize" in log && "descr" in log
  {
    assert RankingKeysBefore[0] == "time" && RankingKeysBefore[1] == "ip";
    assert RankingKeysBefore[2] == "username" && RankingKeysBefore[3] == "cmd";
    assert RankingKeysAfter[0] == "isdir" && RankingKeysAfter[1] == "filesize" && RankingKeysAfter[2] == "descr";
  }

  /** One record through a loop that has not failed yet, from an empty state. */
  function Visit(pass: Pass, log: Record, f: Filter): (d: Scan)
    ensures d.error.None? ==> |d.shown| <= 1
  {
    match pass
    case SystemPass => SystemVisit(log, f)
    case FileStationPass => FileStationVisit(log, f)
    case RankingPass => RankingVisit(log, f)
  }

  /** A system record: a level that is not a string raises at `.lower()` whether
      or not the date matches; a kept record goes through `add_log`. */
  function SystemVisit(log: Record, f: Filter): (d: Scan)
    ensures d.error.None? ==> |d.shown| <= 1
  {
    match FormatDate(f.parse, Get(log, "time", JStr("")))
    case None => Clean
    case Some(t) =>
      match Get(log, "level", JStr("N/A"))
      case JStr(level) =>
        if InRange(f.range, t) && Chosen(f.priority, SystemLogs.MapPriority(level)) then
          match SystemLogs.SystemEntry(log)
          case Success(entry) => Scan([entry], [entry], None)
          case Failure(e) => Scan([], [], Some(e))
        else Clean
      case other => Scan([], [], Some(Raised(NoLowerMessage(other))))
  }

  /** A File Station record: a command that is not a string raises; a kept
      record is added to the buffer, and its table row then raises a KeyError
      when one of the fields it reads is missing. */
  function FileStationVisit(log: Record, f: Filter): (d: Scan)
    ensures d.error.None? ==> |d.shown| <= 1
  {
    match FormatDate(f.parse, Get(log, "time", JStr("")))
    case None => Clean
    case Some(t) =>
      match Get(log, "cmd", JStr("N/A"))
      case JStr(cmd) =>
        var event := FileStationLogs.MapEvent(cmd);
        if InRange(f.range, t) && Chosen(f.event, event) then
          var entry := FileStationLogs.Normalised(log, cmd);
          match FirstMissing(log, ShownKeys)
          case Some(key) => Scan([entry], [], Some(Raised(KeyErrorText(key))))
          case None =>
            ShownKeysPresent(log);
            Scan([entry], [ShownFileRow(log, event)], None)
        else Clean
      case other => Scan([], [], Some(Raised(NoLowerMessage(other))))
  }

  /** A File Station record on the rankings tab: the row's fields are read in
      order, so a missing key before the command, a command that is not a
      string, and a missing key after it raise in that order. */
  function RankingVisit(log: Record, f: Filter): (d: Scan)
    ensures d.logs == [] && (d.error.None? ==> |d.shown| <= 1)
  {
    match FormatDate(f.parse, Get(log, "time", JStr("")))
    case None => Clean
    case Some(t) =>
      if !InRange(f.range, t) then Clean
      else match FirstMissing(log, RankingKeysBefore)
        case Some(key) => Scan([], [], Some(Raised(KeyErrorText(key))))
        case None =>
          assert RankingKeysBefore[3] == "cmd";
          match log["cmd"]
          case JStr(cmd) =>
            (match FirstMissing(log, RankingKeysAfter)
             case Some(key) => Scan([], [], Some(Raised(KeyErrorText(key))))
             case None =>
               RankingKeysPresent(log);
               Scan([], [ShownFileRow(log, FileStationLogs.MapEvent(cmd))], None))
          case other => Scan([], [], Some(Raised(NoLowerMessage(other))))
  }

  /** One step of a loop: nothing happens after an exception; otherwise the
      record's contribution is appended. */
  function Step(s: Scan, d: Scan): Scan
  {
    if s.error.Some? then s else Scan(s.logs + d.logs, s.shown + d.shown, d.error)
  }

  /** The contributions, one after the other. */
  function Fold(ds: seq<Scan>): Scan
  {
    if ds == [] then Clean else Step(Fold(ds[..|ds| - 1]), ds[|ds| - 1])
  }

  /** Each record's contribution, in server order. */
  function Visits(pass: Pass, items: seq<Record>, f: Filter): (ds: seq<Scan>)
    ensures |ds| == |items| && forall i :: 0 <= i < |items| ==> ds[i] == Visit(pass, items[i], f)
  {
    seq(|items|, i requires 0 <= i < |items| => Visit(pass, items[i], f))
  }

  /** The loop over the records in server order. */
  function Run(pass: Pass, items: seq<Record>, f: Filter): Scan
  {
    Fold(Visits(pass, items, f))
  }

  /** Once a loop has failed, later records change nothing. */
  lemma {:induction false} FoldSticks(ds: seq<Scan>, i: nat)
    requires i <= |ds| && Fold(ds[..i]).error.Some?
    ensures Fold(ds) == Fold(ds[..i])
    decreases |ds| - i
  {
    if i < |ds| {
      assert ds[..i + 1][..i] == ds[..i];
      FoldSticks(ds, i + 1);
    } else {
      assert ds[..i] == ds;
    }
  }

  lemma FoldStep(ds: seq<Scan>, i: nat)
    requires i < |ds|
    ensures Fold(ds[..i + 1]) == Step(Fold(ds[..i]), ds[i])
  {
    assert ds[..i + 1][..i] == ds[..i];
  }

  /** Folding a list of contributions is folding its halves, one after the other,
      as long as the first half raises nothing. */
  lemma {:induction false} FoldAppend(xs: seq<Scan>, ys: seq<Scan>)
    requires Fold(xs).error.None?
    ensures var x, y := Fold(xs), Fold(ys);
      Fold(xs + ys) == Scan(x.logs + y.logs, x.shown + y.shown, y.error)
    decreases |ys|
  {
    if ys == [] {
      assert xs + ys == xs;
    } else {
      var init := ys[..|ys| - 1];
      assert (xs + ys)[..|xs + ys| - 1] == xs + init;
      FoldAppend(xs, init);
    }
  }

  lemma VisitsAppend(pass: Pass, a: seq<Record>, b: seq<Record>, f: Filter)
    ensures Visits(pass, a + b, f) == Visits(pass, a, f) + Visits(pass, b, f)
  {
    var ab, x, y := Visits(pass, a + b, f), Visits(pass, a, f), Visits(pass, b, f);
    forall i | 0 <= i < |ab|
      ensures ab[i] == (x + y)[i]
    {
      if i < |a| {
        assert (a + b)[i] == a[i];
      } else {
        assert (a + b)[i] == b[i - |a|];
      }
    }
  }

  /** The loop over a list of records is the loop over its halves, one after the
      other: rows keep server order, and a later part cannot undo an earlier one. */
  lemma RunAppend(pass: Pass, a: seq<Record>, b: seq<Record>, f: Filter)
    requires Run(pass, a, f).error.None?
    ensures var x, y := Run(pass, a, f), Run(pass, b, f);
      Run(pass, a + b, f) == Scan(x.logs + y.logs, x.shown + y.shown, y.error)
  {
    VisitsAppend(pass, a, b, f);
    FoldAppend(Visits(pass, a, f), Visits(pass, b, f));
  }

  /** A record that raises ends the loop there: the state is the one just before
      it plus what the record itself did. */
  lemma RunStopsAt(pass: Pass, items: seq<Record>, f: Filter, i: nat)
    requires i < |items| && Run(pass, items[..i], f).error.None? && Visit(pass, items[i], f).error.Some?
    ensures Run(pass, items, f) == Step(Run(pass, items[..i], f), Visit(pass, items[i], f))
  {
    var ds := Visits(pass, items, f);
    assert Visits(pass, items[..i], f) == ds[..i];
    assert ds[..i + 1][..i] == ds[..i];
    FoldSticks(ds, i + 1);
  }

  // ---------------------------------------------------------------- the filter they implement

  /** The category label a record gets on a tab, None where computing it raises. */
  function Label(pass: Pass, log: Record): Option<string>
  {
    match pass
    case SystemPass =>
      (match Get(log, "level", JStr("N/A")) case JStr(level) => Some(SystemLogs.MapPriority(level)) case _ => None)
    case FileStationPass =>
      (match Get(log, "cmd", JStr("N/A")) case JStr(cmd) => Some(FileStationLogs.MapEvent(cmd)) case _ => None)
    case RankingPass => Some("")
  }

  /** The filter predicate: the time parses, lies in the range, and the label
      matches the tab's selected category (the rankings tab has none). */
  predicate Kept(pass: Pass, log: Record, f: Filter)
  {
    var t := FormatDate(f.parse, Get(log, "time", JStr("")));
    && t.Some? && InRange(f.range, t.value) && Label(pass, log).Some?
    && match pass
       case SystemPass => Chosen(f.priority, Label(pass, log).value)
       case FileStationPass => Chosen(f.event, Label(pass, log).value)
       case RankingPass => true
  }

  /** The normalised row a record becomes: the buffer's row on the system tab, the
      File Station buffer's row on the other two. */
  function TableRow(pass: Pass, log: Record): Entry
  {
    if pass == SystemPass then
      match SystemLogs.SystemEntry(log) case Success(entry) => entry case Failure(_) => map[]
    else
      match Get(log, "cmd", JStr("N/A")) case JStr(cmd) => FileStationLogs.Normalised(log, cmd) case _ => map[]
  }

  /** The rows of the records a tab keeps, in server order: the reference filter. */
  function KeptRows(pass: Pass, items: seq<Record>, f: Filter): (rows: seq<Entry>)
    ensures |rows| <= |items|
  {
    if items == [] then []
    else
      var last := items[|items| - 1];
      KeptRows(pass, items[..|items| - 1], f) + if Kept(pass, last, f) then [TableRow(pass, last)] else []
  }

  /** The row a File Station table shows is the row its buffer stores. */
  lemma FileStationRowAgrees(log: Record, cmd: string)
    requires Get(log, "cmd", JStr("N/A")) == JStr(cmd)
    requires "time" in log && "ip" in log && "username" in log && "isdir" in log && "filesize" in log && "descr" in log
    ensures ShownFileRow(log, FileStationLogs.MapEvent(cmd)) == FileStationLogs.Normalised(log, cmd)
  {
  }

  /** A record that does not raise contributes its row exactly when it is kept. */
  lemma VisitKeeps(pass: Pass, log: Record, f: Filter)
    requires Visit(pass, log, f).error.None?
    ensures Visit(pass, log, f).shown == if Kept(pass, log, f) then [TableRow(pass, log)] else []
    ensures pass != RankingPass ==> Visit(pass, log, f).logs == Visit(pass, log, f).shown
  {
    if pass != SystemPass && Kept(pass, log, f) {
      var cmd := Get(log, "cmd", JStr("N/A")).s;
      if pass == FileStationPass {
        ShownKeysPresent(log);
      } else {
        RankingKeysPresent(log);
      }
      FileStationRowAgrees(log, cmd);
    }
  }

  /** A system record whose level is not a string raises at `.lower()` once its
      time parses, whether or not its date is in the range. */
  lemma BadLevelRaises(log: Record, f: Filter)
    requires FormatDate(f.parse, Get(log, "time", JStr(""))).Some?
    requires !Get(log, "level", JStr("N/A")).JStr?
    ensures "level" in log && SystemVisit(log, f) == Scan([], [], Some(Raised(NoLowerMessage(log["level"]))))
  {
  }

  /** A kept File Station record without an address is stored in the buffer but
      never shown: its table row raises KeyError 'ip' after `add_log`. */
  lemma MissingAddressStoredNotShown(log: Record, f: Filter)
    requires Kept(FileStationPass, log, f) && "time" in log && "ip" !in log
    ensures FileStationVisit(log, f)
      == Scan([FileStationLogs.Normalised(log, Get(log, "cmd", JStr("N/A")).s)], [], Some(Raised(KeyErrorText("ip"))))
  {
    assert ShownKeys[0] == "time" && ShownKeys[1..][0] == "ip";
    assert FirstMissing(log, ShownKeys) == FirstMissing(log, ShownKeys[1..]);
  }

  /** A loop that ends without an exception shows the rows of the kept records,
      in server order, and on the two log tabs leaves the buffer holding exactly
      the rows it shows. */
  lemma {:induction false} RunFilters(pass: Pass, items: seq<Record>, f: Filter)
    requires Run(pass, items, f).error.None?
    ensures Run(pass, items, f).shown == KeptRows(pass, items, f)
    ensures pass != RankingPass ==> Run(pass, items, f).logs == Run(pass, items, f).shown
  {
    if items != [] {
      var init := items[..|items| - 1];
      var last := items[|items| - 1];
      var ds := Visits(pass, items, f);
      assert ds[..|items| - 1] == Visits(pass, init, f);
      assert Run(pass, items, f) == Step(Run(pass, init, f), Visit(pass, last, f));
      RunFilters(pass, init, f);
      VisitKeeps(pass, last, f);
    }
  }

  // ---------------------------------------------------------------- the loops as written

  /** The body of the system tab's loop for one record. */
  method SystemRecord(log: Record, f: Filter, buffer: SystemLogs.SystemLog)
    returns (added: seq<Entry>, error: Option<Error>)
    modifies buffer
    ensures buffer.logs == old(buffer.logs) + SystemVisit(log, f).logs
    ensures added == SystemVisit(log, f).shown && error == SystemVisit(log, f).error
  {
    added, error := [], None;
    var t := FormatDate(f.parse, Get(log, "time", JStr("")));
    if t.Some? {
      var level := Get(log, "level", JStr("N/A"));
      if !level.JStr? {
        return [], Some(Raised(NoLowerMessage(level)));
      }
      var priority := SystemLogs.MapPriority(level.s);
      if InRange(f.range, t.value) && Chosen(f.priority, priority) {
        error := buffer.AddLog(log);
        if error.None? {
          added := [buffer.logs[|buffer.logs| - 1]];
        }
      }
    }
  }

  /** The system tab's loop: clears the buffer, then adds and shows each kept
      record, until a record raises. */
  method FilterSystemLogs(items: seq<Record>, f: Filter, buffer: SystemLogs.SystemLog)
    returns (shown: seq<Entry>, error: Option<Error>)
    modifies buffer
    ensures Scan(buffer.logs, shown, error) == Run(SystemPass, items, f)
  {
    ghost var ds := Visits(SystemPass, items, f);
    buffer.logs := [];
    shown := [];
    error := None;
    for i := 0 to |items|
      invariant Scan(buffer.logs, shown, error) == Fold(ds[..i])
      invariant error.None?
    {
      FoldStep(ds, i);
      var added;
      added, error := SystemRecord(items[i], f, buffer);
      shown := shown + added;
      if error.Some? {
        FoldSticks(ds, i + 1);
        return;
      }
    }
    assert ds[..|items|] == ds;
  }

  /** The body of the File Station tab's loop for one record. */
  method FileStationRecord(log: Record, f: Filter, buffer: FileStationLogs.FileStationLog)
    returns (added: seq<Entry>, error: Option<Error>)
    modifies buffer
    ensures buffer.logs == old(buffer.logs) + FileStationVisit(log, f).logs
    ensures added == FileStationVisit(log, f).shown && error == FileStationVisit(log, f).error
  {
    added, error := [], None;
    var t := FormatDate(f.parse, Get(log, "time", JStr("")));
    if t.Some? {
      var cmd := Get(log, "cmd", JStr("N/A"));
      if !cmd.JStr? {
        return [], Some(Raised(NoLowerMessage(cmd)));
      }
      var event := FileStationLogs.MapEvent(cmd.s);
      if InRange(f.range, t.value) && Chosen(f.event, event) {
        var failed := buffer.AddLog(log);
        var missing := FirstMissing(log, ShownKeys);
        if missing.Some? {
          return [], Some(Raised(KeyErrorText(missing.value)));
        }
        ShownKeysPresent(log);
        added := [ShownFileRow(log, event)];
      }
    }
  }

  /** The File Station tab's loop: like the system one, but the table row reads
      its fields with `log[key]`, so a record missing one is added to the buffer
      and then ends the loop with a KeyError. */
  method FilterFileStationLogs(items: seq<Record>, f: Filter, buffer: FileStationLogs.FileStationLog)
    returns (shown: seq<Entry>, error: Option<Error>)
    modifies buffer
    ensures Scan(buffer.logs, shown, error) == Run(FileStationPass, items, f)
  {
    ghost var ds := Visits(FileStationPass, items, f);
    buffer.logs := [];
    shown := [];
    error := None;
    for i := 0 to |items|
      invariant Scan(buffer.logs, shown, error) == Fold(ds[..i])
      invariant error.None?
    {
      FoldStep(ds, i);
      var added;
      added, error := FileStationRecord(items[i], f, buffer);
      shown := shown + added;
      if error.Some? {
        FoldSticks(ds, i + 1);
        return;
      }
    }
    assert ds[..|items|] == ds;
  }

  /** The body of the rankings tab's loop for one record. */
  method RankingRecord(log: Record, f: Filter) returns (added: seq<Entry>, error: Option<Error>)
    ensures added == RankingVisit(log, f).shown && error == RankingVisit(log, f).error
  {
    added, error := [], None;
    var t := FormatDate(f.parse, Get(log, "time", JStr("")));
    if t.Some? && InRange(f.range, t.value) {
      var before := FirstMissing(log, RankingKeysBefore);
      if before.Some? {
        return [], Some(Raised(KeyErrorText(before.value)));
      }
      assert RankingKeysBefore[3] == "cmd";
      if !log["cmd"].JStr? {
        return [], Some(Raised(NoLowerMessage(log["cmd"])));
      }
      var after := FirstMissing(log, RankingKeysAfter);
      if after.Some? {
        return [], Some(Raised(KeyErrorText(after.value)));
      }
      RankingKeysPresent(log);
      added := [ShownFileRow(log, FileStationLogs.MapEvent(log["cmd"].s))];
    }
  }

  /** The rankings tab's loop: File Station records in the range become rows;
      there is no category and no buffer. */
  method FilterRankingRows(items: seq<Record>, f: Filter) returns (rows: seq<Entry>, error: Option<Error>)
    ensures Scan([], rows, error) == Run(RankingPass, items, f)
  {
    ghost var ds := Visits(RankingPass, items, f);
    rows := [];
    error := None;
    for i := 0 to |items|
      invariant Scan([], rows, error) == Fold(ds[..i])
      invariant error.None?
    {
      FoldStep(ds, i);
      var added;
      added, error := RankingRecord(items[i], f);
      rows := rows + added;
      if error.Some? {
        FoldSticks(ds, i + 1);
        return;
      }
    }
    assert ds[..|items|] == ds;
  }

  // ---------------------------------------------------------------- after a loop

  /** The text of the error box that ends `fetch_logs`. */
  function FetchFailed(e: Error): string
  {
    "獲取日誌失敗: " + Describe(e)
  }

  /** What refreshing a log tab does after its loop: the table from page 1, or,
      with nothing kept, a page label the window never created, which raises. */
  function Refresh(shown: seq<Entry>, labelName: string): (r: Option<Error>)
    ensures r.None? <==> shown != []
  {
    if shown == [] then Some(Raised("'LogWindow' object has no attribute '" + labelName + "'")) else None
  }
}
