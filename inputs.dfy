/** The two input checks of the GUI: the login form (`validate_inputs`) and the
    date fields (`validate_date`), together with the `strptime("%Y-%m-%d")` the
    date filter applies to a date the check let through. */
module Inputs {
  import opened Common
  import opened Sheets

  // ---------------------------------------------------------------- login form

  /** What the login form check decides: go on, or stop with the warning shown. */
  datatype Verdict = Accepted | Rejected(message: string)

  const InvalidIp: string := "請輸入有效IP"
  const InvalidPort: string := "請輸入有效埠口"
  const NoAccount: string := "請輸入管理員帳號"
  const NoPassword: string := "請輸入管理員密碼"

  /** Four runs of digits separated by dots, and nothing else. */
  predicate DottedQuad(s: string)
  {
    var parts := Split(s, '.');
    |parts| == 4 && AllDigits(parts[0]) && AllDigits(parts[1]) && AllDigits(parts[2]) && AllDigits(parts[3])
  }

  /** `re.match(r"^\d+\.\d+\.\d+\.\d+$", s)`: `$` also matches before a final newline. */
  predicate IpShape(s: string)
  {
    DottedQuad(s) || (|s| > 0 && s[|s| - 1] == '\n' && DottedQuad(s[..|s| - 1]))
  }

  /** The port actually used: an empty field means 5000. */
  function PortText(port: string): string
  {
    if port == "" then "5000" else port
  }

  predicate PortOk(port: string)
  {
    var t := PortText(port);
    AllDigits(t) && 1 <= DigitsValue(t) <= 65535
  }

  /** `validate_inputs`: the checks in order, the first failing one decides. */
  function ValidateInputs(ip: string, port: string, account: string, password: string): (v: Verdict)
    ensures v == Accepted <==> IpShape(ip) && PortOk(port) && account != "" && password != ""
    ensures !IpShape(ip) ==> v == Rejected(InvalidIp)
    ensures IpShape(ip) && !PortOk(port) ==> v == Rejected(InvalidPort)
    ensures IpShape(ip) && PortOk(port) && account == "" ==> v == Rejected(NoAccount)
    ensures IpShape(ip) && PortOk(port) && account != "" && password == "" ==> v == Rejected(NoPassword)
  {
    if !IpShape(ip) then Rejected(InvalidIp)
    else if !PortOk(port) then Rejected(InvalidPort)
    else if account == "" then Rejected(NoAccount)
    else if password == "" then Rejected(NoPassword)
    else Accepted
  }

  lemma JoinFourParts(a: string, b: string, c: string, d: string)
    ensures Join([a, b, c, d], '.') == a + "." + b + "." + c + "." + d
  {
    JoinFour(a, b, c, d, '.');
  }

  /** Any four digit runs joined by dots have the shape, however large: the
      octets are not range-checked. */
  lemma DottedQuadOfRuns(a: string, b: string, c: string, d: string)
    requires AllDigits(a) && AllDigits(b) && AllDigits(c) && AllDigits(d)
    ensures DottedQuad(a + "." + b + "." + c + "." + d)
  {
    DigitsFree(a, '.'); DigitsFree(b, '.'); DigitsFree(c, '.'); DigitsFree(d, '.');
    JoinFourParts(a, b, c, d);
    JoinSplit([a, b, c, d], '.');
  }

  /** Conversely, a text with the shape is four digit runs joined by dots. */
  lemma DottedQuadRuns(s: string)
    requires DottedQuad(s)
    ensures var p := Split(s, '.');
      AllDigits(p[0]) && AllDigits(p[1]) && AllDigits(p[2]) && AllDigits(p[3])
      && s == p[0] + "." + p[1] + "." + p[2] + "." + p[3]
  {
    var p := Split(s, '.');
    SplitJoin(s, '.');
    assert p == [p[0], p[1], p[2], p[3]];
    JoinFourParts(p[0], p[1], p[2], p[3]);
  }

  /** A port written in decimal passes exactly when it is in 1..65535, whatever
      zeros lead it. */
  lemma PortRange(zeros: nat, n: nat)
    ensures PortOk(Zeros(zeros) + NatText(n)) <==> 1 <= n <= 65535
  {
    NatTextValue(n);
    LeadingZerosValue(zeros, NatText(n));
  }

  /** An empty port field stands for 5000, which passes. */
  lemma DefaultPort()
    ensures PortText("") == NatText(5000)
    ensures PortOk("")
  {
    assert NatText(5000) == "5000" by {
      assert NatText(500) == "500" by { assert NatText(50) == "50"; }
    }
    PortRange(0, 5000);
    assert Zeros(0) + NatText(5000) == "5000";
  }

  // ---------------------------------------------------------------- dates

  datatype Date = Date(year: nat, month: nat, day: nat)

  predicate Leap(year: nat)
  {
    year % 4 == 0 && (year % 100 != 0 || year % 400 == 0)
  }

  function DaysInMonth(year: nat, month: nat): (n: nat)
    requires 1 <= month <= 12
    ensures 28 <= n <= 31
  {
    if month == 2 then (if Leap(year) then 29 else 28)
    else if month == 4 || month == 6 || month == 9 || month == 11 then 30
    else 31
  }

  /** A day `datetime.date` accepts. */
  predicate IsCalendarDate(d: Date)
  {
    1 <= d.year && 1 <= d.month <= 12 && 1 <= d.day <= DaysInMonth(d.year, d.month)
  }

  /** Python's `s.zfill(width)`: zeros inserted after a leading sign. */
  function ZFill(s: string, width: nat): (r: string)
    ensures |r| == if |s| >= width then |s| else width
  {
    if |s| >= width then s
    else if |s| > 0 && (s[0] == '+' || s[0] == '-') then [s[0]] + Zeros(width - |s|) + s[1..]
    else Zeros(width - |s|) + s
  }

  /** strptime's `%m` matched against a whole field: `1[0-2]|0[1-9]|[1-9]`. */
  function MonthField(f: string): (r: Option<nat>)
    ensures r.Some? ==> 1 <= r.value <= 12
  {
    if |f| == 2 && f[0] == '1' && '0' <= f[1] <= '2' then Some(10 + DigitValue(f[1]))
    else if |f| == 2 && f[0] == '0' && '1' <= f[1] <= '9' then Some(DigitValue(f[1]))
    else if |f| == 1 && '1' <= f[0] <= '9' then Some(DigitValue(f[0]))
    else None
  }

  /** strptime's `%d` matched against a whole field: `3[01]|[12]\d|0[1-9]|[1-9]| [1-9]`. */
  function DayField(f: string): (r: Option<nat>)
    ensures r.Some? ==> 1 <= r.value <= 31
  {
    if |f| == 2 && f[0] == '3' && (f[1] == '0' || f[1] == '1') then Some(30 + DigitValue(f[1]))
    else if |f| == 2 && (f[0] == '1' || f[0] == '2') && IsDigit(f[1]) then Some(10 * DigitValue(f[0]) + DigitValue(f[1]))
    else if |f| == 2 && f[0] == '0' && '1' <= f[1] <= '9' then Some(DigitValue(f[1]))
    else if |f| == 1 && '1' <= f[0] <= '9' then Some(DigitValue(f[0]))
    else if |f| == 2 && f[0] == ' ' && '1' <= f[1] <= '9' then Some(DigitValue(f[1]))
    else None
  }

  /** `strptime(y + "-" + m + "-" + d, "%Y-%m-%d")` for fields holding no '-':
      `%Y` is four digits, then the calendar must have the day. */
  function DateFields(y: string, m: string, d: string): (r: Option<Date>)
    ensures r.Some? ==> IsCalendarDate(r.value)
  {
    if |y| == 4 && AllDigits(y) && MonthField(m).Some? && DayField(d).Some? then
      var date := Date(DigitsValue(y), MonthField(m).value, DayField(d).value);
      if IsCalendarDate(date) then Some(date) else None
    else None
  }

  /** `datetime.strptime(text, "%Y-%m-%d").date()`, None where it raises ValueError. */
  function ParseDate(text: string): (r: Option<Date>)
    ensures r.Some? ==> IsCalendarDate(r.value)
  {
    var parts := Split(text, '-');
    if |parts| == 3 then DateFields(parts[0], parts[1], parts[2]) else None
  }

  /** Zero-filling a field that strptime reads does not change what it reads. */
  lemma MonthZFill(f: string)
    requires MonthField(ZFill(f, 2)).Some?
    ensures MonthField(f) == MonthField(ZFill(f, 2))
  {
    if |f| == 1 {
      assert ZFill(f, 2) == ['0', f[0]];
    }
  }

  lemma DayZFill(f: string)
    requires DayField(ZFill(f, 2)).Some?
    ensures DayField(f) == DayField(ZFill(f, 2))
  {
    if |f| == 1 {
      assert ZFill(f, 2) == ['0', f[0]];
    }
  }

  /** `validate_date`: three '-'-separated parts, a four-digit year, a month
      1..12 and a day 1..31 read by `int()`, and the zero-filled date on the
      calendar. A part `int()` rejects gives false rather than an exception.
      Whatever it accepts, the `strptime` that follows it parses. */
  function ValidateDate(text: string): (ok: bool)
    ensures ok ==> ParseDate(text).Some?
  {
    var parts := Split(text, '-');
    if |parts| != 3 || !(|parts[0]| == 4 && AllDigits(parts[0])) then false
    else match PyInt(parts[1])
      case None => false
      case Some(month) =>
        if !(1 <= month <= 12) then false
        else match PyInt(parts[2])
          case None => false
          case Some(day) =>
            if !(1 <= day <= 31) then false
            else
              var zfilled := DateFields(parts[0], ZFill(parts[1], 2), ZFill(parts[2], 2));
              if zfilled.Some? then
                MonthZFill(parts[1]);
                DayZFill(parts[2]);
                true
              else false
  }

  /** `yyyy-MM-dd`, the text the date picker writes into a date field. */
  function DateText(d: Date): string
  {
    Pad(d.year, 4) + "-" + Pad(d.month, 2) + "-" + Pad(d.day, 2)
  }

  lemma TwoDigits(n: nat)
    requires n < 100
    ensures Pad(n, 2) == [DigitChar(n / 10), DigitChar(n % 10)]
  {
    if n >= 10 {
      assert NatText(n / 10) == [DigitChar(n / 10)];
    }
  }

  lemma FourDigits(n: nat)
    requires n < 10000
    ensures |Pad(n, 4)| == 4
  {
    if n >= 1000 {
      assert |NatText(n / 10 / 10 / 10)| == 1;
      assert |NatText(n / 10 / 10)| == 2;
      assert |NatText(n / 10)| == 3;
    } else if n >= 100 {
      assert |NatText(n / 10 / 10)| == 1;
      assert |NatText(n / 10)| == 2;
    } else if n >= 10 {
      assert |NatText(n / 10)| == 1;
    }
  }

  lemma JoinThree(a: string, b: string, c: string, sep: char)
    ensures Join([a, b, c], sep) == a + [sep] + b + [sep] + c
  {
    assert [a, b, c][1..] == [b, c];
    assert [b, c][1..] == [c];
    assert Join([b, c], sep) == b + [sep] + c;
  }

  lemma SplitDateText(d: Date)
    requires d.year < 10000 && d.month < 100 && d.day < 100
    ensures Split(DateText(d), '-') == [Pad(d.year, 4), Pad(d.month, 2), Pad(d.day, 2)]
  {
    var y, m, dd := Pad(d.year, 4), Pad(d.month, 2), Pad(d.day, 2);
    DigitsFree(y, '-'); DigitsFree(m, '-'); DigitsFree(dd, '-');
    JoinThree(y, m, dd, '-');
    JoinSplit([y, m, dd], '-');
  }

  /** Every calendar date of a four-digit year, written by the date picker, is
      accepted and read back as itself. */
  lemma DateTextRoundTrip(d: Date)
    requires IsCalendarDate(d) && d.year < 10000
    ensures ValidateDate(DateText(d))
    ensures ParseDate(DateText(d)) == Some(d)
  {
    SplitDateText(d);
    FourDigits(d.year);
    PadValue(d.year, 4);
    PadValue(d.month, 2);
    PadValue(d.day, 2);
    TwoDigits(d.month);
    TwoDigits(d.day);
    var m, dd := Pad(d.month, 2), Pad(d.day, 2);
    assert MonthField(m) == Some(d.month);
    assert DayField(dd) == Some(d.day);
    assert ZFill(m, 2) == m && ZFill(dd, 2) == dd;
  }

  /** A date whose zero-filled fields strptime refuses is not valid. */
  lemma NoDay(y: string, m: string, d: string)
    requires |y| == 4 && AllDigits(y) && |m| == 2 && |d| == 2
    requires Free(m, '-') && Free(d, '-')
    requires DateFields(y, m, d).None?
    ensures !ValidateDate(y + "-" + m + "-" + d)
  {
    DigitsFree(y, '-');
    JoinThree(y, m, d, '-');
    JoinSplit([y, m, d], '-');
  }

  /** No year has a February 30th or 31st. */
  lemma FebruaryEnds(y: string)
    requires |y| == 4 && AllDigits(y)
    ensures !ValidateDate(y + "-02-30") && !ValidateDate(y + "-02-31")
  {
    assert MonthField("02") == Some(2) && DayField("30") == Some(30) && DayField("31") == Some(31);
    NoDay(y, "02", "30");
    assert y + "-" + "02" + "-" + "30" == y + "-02-30";
    NoDay(y, "02", "31");
    assert y + "-" + "02" + "-" + "31" == y + "-02-31";
  }

  /** April, June, September and November have no 31st. */
  lemma ShortMonths(y: string, m: string)
    requires |y| == 4 && AllDigits(y)
    requires m == "04" || m == "06" || m == "09" || m == "11"
    ensures !ValidateDate(y + "-" + m + "-31")
  {
    assert DayField("31") == Some(31);
    assert MonthField(m).Some? && MonthField(m).value in {4, 6, 9, 11};
    NoDay(y, m, "31");
    assert y + "-" + m + "-" + "31" == y + "-" + m + "-31";
  }

  /** February 29th is accepted exactly in leap years. */
  lemma LeapDay(year: nat)
    requires 1 <= year < 10000
    ensures ValidateDate(DateText(Date(year, 2, 29))) <==> Leap(year)
  {
    TwoDigits(2);
    TwoDigits(29);
    if Leap(year) {
      DateTextRoundTrip(Date(year, 2, 29));
    } else {
      var y := Pad(year, 4);
      FourDigits(year);
      PadValue(year, 4);
      assert MonthField("02") == Some(2) && DayField("29") == Some(29);
      NoDay(y, "02", "29");
    }
  }

}
