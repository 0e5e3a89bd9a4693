/** What the three log buffers share: the time-stamped file name on the Desktop
    (`get_log_path`), the worksheet a DataFrame of entries becomes, and the
    save protocol (nothing to save, written and cleared, or failed and kept).
    The clock and the spreadsheet writer are parameters. */
module Sheets {
  import opened Common

  // ---------------------------------------------------------------- time stamps

  /** The fields of `datetime.now()` that the file name shows. */
  datatype Clock = Clock(year: nat, month: nat, day: nat, hour: nat, minute: nat, second: nat)

  /** A strftime field: the decimal digits of n, zero-padded on the left to `width`. */
  function Pad(n: nat, width: nat): (s: string)
    ensures AllDigits(s) && |s| >= width
  {
    var t := NatText(n);
    if |t| >= width then t else Zeros(width - |t|) + t
  }

  lemma {:induction false} ZerosValue(n: nat)
    ensures DigitsValue(Zeros(n)) == 0
  {
    if n > 0 {
      assert Zeros(n)[..n - 1] == Zeros(n - 1);
      ZerosValue(n - 1);
    }
  }

  /** Leading zeros do not change the value of a digit string. */
  lemma {:induction false} LeadingZerosValue(k: nat, t: string)
    requires forall i :: 0 <= i < |t| ==> IsDigit(t[i])
    ensures DigitsValue(Zeros(k) + t) == DigitsValue(t)
    decreases |t|
  {
    var s := Zeros(k) + t;
    if t == [] {
      assert s == Zeros(k);
      ZerosValue(k);
    } else {
      assert s[..|s| - 1] == Zeros(k) + t[..|t| - 1];
      LeadingZerosValue(k, t[..|t| - 1]);
    }
  }

  lemma PadValue(n: nat, width: nat)
    ensures DigitsValue(Pad(n, width)) == n
  {
    var t := NatText(n);
    NatTextValue(n);
    if |t| < width {
      assert Pad(n, width) == Zeros(width - |t|) + t;
      LeadingZerosValue(width - |t|, t);
    } else {
      assert Pad(n, width) == t;
    }
  }

  /** `strftime("%Y-%m-%d-%H_%M_%S")` */
  function Stamp(c: Clock): string
  {
    Pad(c.year, 4) + "-" + Pad(c.month, 2) + "-" + Pad(c.day, 2) + "-"
      + Pad(c.hour, 2) + "_" + Pad(c.minute, 2) + "_" + Pad(c.second, 2)
  }

  /** Reading a stamp back: four '-'-separated fields, the last of them three
      '_'-separated fields, all decimal. */
  function ReadStamp(s: string): Option<Clock>
  {
    var date := Split(s, '-');
    if |date| != 4 then None
    else
      var time := Split(date[3], '_');
      if |time| != 3 then None
      else if AllDigits(date[0]) && AllDigits(date[1]) && AllDigits(date[2])
              && AllDigits(time[0]) && AllDigits(time[1]) && AllDigits(time[2]) then
        Some(Clock(DigitsValue(date[0]), DigitsValue(date[1]), DigitsValue(date[2]),
                   DigitsValue(time[0]), DigitsValue(time[1]), DigitsValue(time[2])))
      else None
  }

  lemma DigitsFree(s: string, c: char)
    requires AllDigits(s) && !IsDigit(c)
    ensures Free(s, c)
  {
  }

  lemma JoinThreeFree(a: string, b: string, c: string, sep: char, other: char)
    requires Free(a, other) && Free(b, other) && Free(c, other) && sep != other
    ensures Join([a, b, c], sep) == a + [sep] + b + [sep] + c
    ensures Free(Join([a, b, c], sep), other)
  {
    assert [a, b, c][1..] == [b, c];
    assert [b, c][1..] == [c];
    assert Join([b, c], sep) == b + [sep] + c;
    var j := a + [sep] + b + [sep] + c;
    assert Join([a, b, c], sep) == a + [sep] + (b + [sep] + c);
    forall i | 0 <= i < |j|
      ensures j[i] != other
    {
      if i < |a| {
        assert j[i] == a[i];
      } else if i == |a| {
      } else if i < |a| + 1 + |b| {
        assert j[i] == b[i - |a| - 1];
      } else if i == |a| + 1 + |b| {
      } else {
        assert j[i] == c[i - |a| - |b| - 2];
      }
    }
  }

  lemma JoinFour(a: string, b: string, c: string, d: string, sep: char)
    ensures Join([a, b, c, d], sep) == a + [sep] + b + [sep] + c + [sep] + d
  {
    assert [a, b, c, d][1..] == [b, c, d];
    assert [b, c, d][1..] == [c, d];
    assert [c, d][1..] == [d];
    assert Join([c, d], sep) == c + [sep] + d;
    assert Join([b, c, d], sep) == b + [sep] + (c + [sep] + d);
    assert Join([a, b, c, d], sep) == a + [sep] + (b + [sep] + (c + [sep] + d));
  }

  /** The stamp names its second: reading it back gives the clock it was made from. */
  lemma StampRoundTrip(c: Clock)
    ensures ReadStamp(Stamp(c)) == Some(c)
  {
    var y, mo, d := Pad(c.year, 4), Pad(c.month, 2), Pad(c.day, 2);
    var h, mi, s := Pad(c.hour, 2), Pad(c.minute, 2), Pad(c.second, 2);
    DigitsFree(h, '_'); DigitsFree(mi, '_'); DigitsFree(s, '_');
    DigitsFree(h, '-'); DigitsFree(mi, '-'); DigitsFree(s, '-');
    DigitsFree(y, '-'); DigitsFree(mo, '-'); DigitsFree(d, '-');
    JoinThreeFree(h, mi, s, '_', '-');
    var time := Join([h, mi, s], '_');
    JoinFour(y, mo, d, time, '-');
    assert Stamp(c) == Join([y, mo, d, time], '-');
    JoinSplit([y, mo, d, time], '-');
    JoinSplit([h, mi, s], '_');
    PadValue(c.year, 4); PadValue(c.month, 2); PadValue(c.day, 2);
    PadValue(c.hour, 2); PadValue(c.minute, 2); PadValue(c.second, 2);
  }

  /** `get_log_path`: `<home>/Desktop/<prefix><stamp>.xlsx`. */
  function LogPath(home: string, prefix: string, now: Clock): (path: string)
    ensures |path| == |home| + |"/Desktop/"| + |prefix| + |Stamp(now)| + |".xlsx"|
    ensures path[|path| - |".xlsx"|..] == ".xlsx"
  {
    home + "/Desktop/" + prefix + Stamp(now) + ".xlsx"
  }

  /** The file name is the Desktop folder, then the prefix, then a stamp that reads
      back as the creation time, then ".xlsx". */
  lemma LogPathParts(home: string, prefix: string, now: Clock)
    ensures var path := LogPath(home, prefix, now);
      && path[..|home| + 9] == home + "/Desktop/"
      && path[|home| + 9..|home| + 9 + |prefix|] == prefix
      && ReadStamp(path[|home| + 9 + |prefix|..|path| - 5]) == Some(now)
  {
    PathParts(home, prefix, Stamp(now));
    StampRoundTrip(now);
  }

  /** Where each part of a file name sits in it. */
  lemma PathParts(home: string, prefix: string, stamp: string)
    ensures var path := home + "/Desktop/" + prefix + stamp + ".xlsx";
      && |path| == |home| + 9 + |prefix| + |stamp| + 5
      && path[..|home| + 9] == home + "/Desktop/"
      && path[|home| + 9..|home| + 9 + |prefix|] == prefix
      && path[|home| + 9 + |prefix|..|path| - 5] == stamp
      && path[|path| - 5..] == ".xlsx"
  {
    var lead := home + "/Desktop/" + prefix;
    var path := lead + stamp + ".xlsx";
    assert path[..|lead|] == lead && path[|lead|..|path| - 5] == stamp;
    assert lead[..|home| + 9] == home + "/Desktop/" && lead[|home| + 9..] == prefix;
  }

  /** Buffers created at different seconds write to different files. */
  lemma LogPathInjective(home: string, prefix: string, a: Clock, b: Clock)
    requires LogPath(home, prefix, a) == LogPath(home, prefix, b)
    ensures a == b
  {
    var lead := |home + "/Desktop/" + prefix|;
    var pa, pb := LogPath(home, prefix, a), LogPath(home, prefix, b);
    assert pa[lead..|pa| - 5] == Stamp(a);
    assert pb[lead..|pb| - 5] == Stamp(b);
    StampRoundTrip(a);
    StampRoundTrip(b);
  }

  // ---------------------------------------------------------------- worksheets

  /** A worksheet as the values of its cells, row by row from row 1 and column A;
      an empty cell is JNull. */
  datatype Sheet = Sheet(name: string, rows: seq<seq<Json>>)
  type Workbook = seq<Sheet>

  /** The name `to_excel` gives the only sheet it writes. */
  const DefaultSheetName: string := "Sheet1"

  function Header(columns: seq<string>): (row: seq<Json>)
    ensures |row| == |columns| && forall i :: 0 <= i < |columns| ==> row[i] == JStr(columns[i])
  {
    seq(|columns|, i requires 0 <= i < |columns| => JStr(columns[i]))
  }

  /** One entry as a DataFrame row over `columns`: a key the entry lacks is NaN. */
  function Row(entry: Entry, columns: seq<string>): (row: seq<Json>)
    ensures |row| == |columns|
    ensures forall i :: 0 <= i < |columns| ==> row[i] == Get(entry, columns[i], JNull)
  {
    seq(|columns|, i requires 0 <= i < |columns| => Get(entry, columns[i], JNull))
  }

  function Rows(entries: seq<Entry>, columns: seq<string>): (rows: seq<seq<Json>>)
    ensures |rows| == |entries|
    ensures forall i :: 0 <= i < |entries| ==> rows[i] == Row(entries[i], columns)
  {
    seq(|entries|, i requires 0 <= i < |entries| => Row(entries[i], columns))
  }

  /** `pd.DataFrame(entries, columns=columns).to_excel(index=False)`: the header, then
      one row per entry in buffer order. */
  function Frame(entries: seq<Entry>, columns: seq<string>): Workbook
  {
    [Sheet(DefaultSheetName, [Header(columns)] + Rows(entries, columns))]
  }

  // ---------------------------------------------------------------- saving

  /** What the spreadsheet writer does with a workbook: writes it, or fails with
      the text of its exception. */
  datatype WriteResult = Written | WriteFailed(reason: string)

  /** Everything a save does: its result, the buffer after it, and the workbook
      it tried to write, if any. */
  datatype SaveEffect = SaveEffect(result: Result<bool, Error>, logs: seq<Entry>, attempted: Option<Workbook>)

  /** The save protocol of every buffer: an empty buffer returns False without
      writing; otherwise the workbook is written, and only a successful write
      clears the buffer and returns True; a failed write raises and keeps it. */
  function SaveStep(logs: seq<Entry>, book: Workbook, failurePrefix: string, outcome: WriteResult): (e: SaveEffect)
    ensures logs == [] ==> e == SaveEffect(Success(false), logs, None)
    ensures logs != [] ==> e.attempted == Some(book)
    ensures e.result == Success(true) <==> logs != [] && outcome.Written?
    ensures e.logs == if e.result == Success(true) then [] else logs
    ensures e.result.Failure? <==> logs != [] && outcome.WriteFailed?
    ensures e.result.Failure? ==> e.result.error == Raised(failurePrefix + outcome.reason)
  {
    if logs == [] then SaveEffect(Success(false), logs, None)
    else match outcome
      case Written => SaveEffect(Success(true), [], Some(book))
      case WriteFailed(reason) => SaveEffect(Failure(Raised(failurePrefix + reason)), logs, Some(book))
  }

  /** A save right after a successful one has nothing to write. */
  lemma SaveAfterSave(logs: seq<Entry>, book: Workbook, book2: Workbook, prefix: string, second: WriteResult)
    requires logs != []
    ensures var first := SaveStep(logs, book, prefix, Written);
      SaveStep(first.logs, book2, prefix, second) == SaveEffect(Success(false), [], None)
  {
  }

  /** Nothing is lost by a failed save: the next save tries the same workbook again. */
  lemma SaveAfterFailure(logs: seq<Entry>, book: Workbook, prefix: string, reason: string, second: WriteResult)
    requires logs != []
    ensures var first := SaveStep(logs, book, prefix, WriteFailed(reason));
      first.logs == logs && SaveStep(first.logs, book, prefix, second).attempted == Some(book)
  {
  }
}
