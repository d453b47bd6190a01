/**
 * Calendar dates as Python's `datetime.date` sees them (proleptic Gregorian,
 * years 1 to 9999), their ordinal day numbers, and the two strptime formats
 * the routes parse: "%Y-%m-%d" for dates and "%H:%M" for times of day.
 */
module Calendar {
  import opened Common

  datatype Date = Date(year: int, month: int, day: int)

  predicate IsLeapYear(y: int) { y % 4 == 0 && (y % 100 != 0 || y % 400 == 0) }

  function DaysInMonth(y: int, m: int): (n: int)
    requires 1 <= m <= 12
    ensures 28 <= n <= 31
    ensures n == 29 <==> m == 2 && IsLeapYear(y)
  {
    if m == 2 then (if IsLeapYear(y) then 29 else 28)
    else if m == 4 || m == 6 || m == 9 || m == 11 then 30
    else 31
  }

  function DaysInYear(y: int): int { if IsLeapYear(y) then 366 else 365 }

  /** A date Python can represent: `datetime.date(year, month, day)` raises ValueError otherwise. */
  predicate ValidDate(d: Date)
  {
    1 <= d.year <= 9999 && 1 <= d.month <= 12 && 1 <= d.day <= DaysInMonth(d.year, d.month)
  }

  /** Days of year `y` before the first day of month `m`. */
  function DaysBeforeMonth(y: int, m: int): nat
    requires 1 <= m <= 12
  {
    if m == 1 then 0 else DaysBeforeMonth(y, m - 1) + DaysInMonth(y, m - 1)
  }

  /** Days before the first of January of year `y`, counted from 0001-01-01. */
  function DaysBeforeYear(y: int): int
    requires y >= 1
  {
    365 * (y - 1) + (y - 1) / 4 - (y - 1) / 100 + (y - 1) / 400
  }

  /** Python's `date.toordinal()`: 0001-01-01 is day 1. */
  function Ordinal(d: Date): int
    requires ValidDate(d)
  {
    DaysBeforeYear(d.year) + DaysBeforeMonth(d.year, d.month) + d.day
  }

  lemma DaysBeforeMonthBounds(y: int, m: int)
    requires 1 <= m <= 12
    ensures DaysBeforeMonth(y, m) + DaysInMonth(y, m) <= DaysInYear(y)
    ensures m < 12 ==> DaysBeforeMonth(y, m + 1) == DaysBeforeMonth(y, m) + DaysInMonth(y, m)
    ensures m == 12 ==> DaysBeforeMonth(y, m) + DaysInMonth(y, m) == DaysInYear(y)
  {
    DaysBeforeDecember(y);
    DaysBeforeMonthMonotone(y, m, 12);
  }

  lemma DaysBeforeDecember(y: int)
    ensures DaysBeforeMonth(y, 12) == DaysInYear(y) - 31
  {
    assert DaysBeforeMonth(y, 2) == 31;
    assert DaysBeforeMonth(y, 3) == 31 + DaysInMonth(y, 2);
    assert DaysBeforeMonth(y, 4) == DaysBeforeMonth(y, 3) + 31;
    assert DaysBeforeMonth(y, 5) == DaysBeforeMonth(y, 4) + 30;
    assert DaysBeforeMonth(y, 6) == DaysBeforeMonth(y, 5) + 31;
    assert DaysBeforeMonth(y, 7) == DaysBeforeMonth(y, 6) + 30;
    assert DaysBeforeMonth(y, 8) == DaysBeforeMonth(y, 7) + 31;
    assert DaysBeforeMonth(y, 9) == DaysBeforeMonth(y, 8) + 31;
    assert DaysBeforeMonth(y, 10) == DaysBeforeMonth(y, 9) + 30;
    assert DaysBeforeMonth(y, 11) == DaysBeforeMonth(y, 10) + 31;
    assert DaysBeforeMonth(y, 12) == DaysBeforeMonth(y, 11) + 30;
  }

  lemma {:induction false} DaysBeforeMonthMonotone(y: int, m: int, n: int)
    requires 1 <= m <= n <= 12
    ensures DaysBeforeMonth(y, m) + (if m < n then DaysInMonth(y, m) else 0) <= DaysBeforeMonth(y, n)
    decreases n - m
  {
    if m < n {
      DaysBeforeMonthMonotone(y, m + 1, n);
    }
  }

  /** A year holds 365 or 366 days: the ordinals of consecutive New Year's days differ by the length of the year. */
  lemma DaysBeforeNextYear(y: int)
    requires y >= 1
    ensures DaysBeforeYear(y + 1) == DaysBeforeYear(y) + DaysInYear(y)
  {
    MultipleStep(y, 4);
    MultipleStep(y, 100);
    MultipleStep(y, 400);
    MultipleChain(y);
    assert DaysBeforeYear(y + 1) - DaysBeforeYear(y)
        == 365 + (y / 4 - (y - 1) / 4) - (y / 100 - (y - 1) / 100) + (y / 400 - (y - 1) / 400);
  }

  /** A multiple of 400 is a multiple of 100, and a multiple of 100 is a multiple of 4. */
  lemma MultipleChain(y: int)
    ensures y % 400 == 0 ==> y % 100 == 0
    ensures y % 100 == 0 ==> y % 4 == 0
  {
    if y % 400 == 0 {
      var q := y / 400;
      assert y == 100 * (4 * q);
      assert y / 100 == 4 * q;
    }
    if y % 100 == 0 {
      var q := y / 100;
      assert y == 4 * (25 * q);
      assert y / 4 == 25 * q;
    }
  }

  /** Going from `y - 1` to `y` adds one to the quotient by `k` exactly when `y` is a multiple of `k`. */
  lemma MultipleStep(y: int, k: int)
    requires k == 4 || k == 100 || k == 400
    ensures y / k - (y - 1) / k == (if y % k == 0 then 1 else 0)
  {
    if k == 4 {
      assert y / 4 - (y - 1) / 4 == (if y % 4 == 0 then 1 else 0);
    } else if k == 100 {
      assert y / 100 - (y - 1) / 100 == (if y % 100 == 0 then 1 else 0);
    } else {
      assert y / 400 - (y - 1) / 400 == (if y % 400 == 0 then 1 else 0);
    }
  }

  /** The day after `d` (Python's `d + timedelta(days=1)`); None where Python raises OverflowError. */
  function NextDay(d: Date): (r: Option<Date>)
    requires ValidDate(d)
    ensures r.None? <==> d == Date(9999, 12, 31)
    ensures r.Some? ==> ValidDate(r.value) && Ordinal(r.value) == Ordinal(d) + 1
  {
    if d.day < DaysInMonth(d.year, d.month) then Some(Date(d.year, d.month, d.day + 1))
    else if d.month < 12 then
      FirstOfNextMonth(d);
      Some(Date(d.year, d.month + 1, 1))
    else if d.year < 9999 then
      FirstOfNextYear(d);
      Some(Date(d.year + 1, 1, 1))
    else None
  }

  /** The day after the last day of a month other than December is the first of the next month. */
  lemma FirstOfNextMonth(d: Date)
    requires ValidDate(d) && d.day == DaysInMonth(d.year, d.month) && d.month < 12
    ensures ValidDate(Date(d.year, d.month + 1, 1)) && Ordinal(Date(d.year, d.month + 1, 1)) == Ordinal(d) + 1
  {
    DaysBeforeMonthBounds(d.year, d.month);
  }

  /** The day after 31 December is New Year's day of the next year. */
  lemma FirstOfNextYear(d: Date)
    requires ValidDate(d) && d.day == DaysInMonth(d.year, d.month) && d.month == 12 && d.year < 9999
    ensures ValidDate(Date(d.year + 1, 1, 1)) && Ordinal(Date(d.year + 1, 1, 1)) == Ordinal(d) + 1
  {
    DaysBeforeMonthBounds(d.year, 12);
    DaysBeforeNextYear(d.year);
  }

  /** The day before `d` (Python's `d - timedelta(days=1)`); None where Python raises OverflowError. */
  function PrevDay(d: Date): (r: Option<Date>)
    requires ValidDate(d)
    ensures r.None? <==> d == Date(1, 1, 1)
    ensures r.Some? ==> ValidDate(r.value) && Ordinal(r.value) == Ordinal(d) - 1
  {
    if d.day > 1 then Some(Date(d.year, d.month, d.day - 1))
    else if d.month > 1 then
      DaysBeforeMonthBounds(d.year, d.month - 1);
      Some(Date(d.year, d.month - 1, DaysInMonth(d.year, d.month - 1)))
    else if d.year > 1 then
      DaysBeforeNextYear(d.year - 1);
      DaysBeforeMonthBounds(d.year - 1, 12);
      Some(Date(d.year - 1, 12, 31))
    else None
  }

  /** Chronological order of dates (Python's `<=` on `date`). */
  predicate DateLeq(a: Date, b: Date)
  {
    a.year < b.year || (a.year == b.year && (a.month < b.month || (a.month == b.month && a.day <= b.day)))
  }

  /** Ordinal of a date lies within its year. */
  lemma OrdinalWithinYear(d: Date)
    requires ValidDate(d)
    ensures DaysBeforeYear(d.year) < Ordinal(d) <= DaysBeforeYear(d.year) + DaysInYear(d.year)
  {
    DaysBeforeMonthBounds(d.year, d.month);
  }

  lemma {:induction false} DaysBeforeYearMonotone(y: int, z: int)
    requires 1 <= y < z
    ensures DaysBeforeYear(y) + DaysInYear(y) <= DaysBeforeYear(z)
    decreases z - y
  {
    DaysBeforeNextYear(y);
    if y + 1 < z {
      DaysBeforeYearMonotone(y + 1, z);
    }
  }

  /** Ordinals number the dates in chronological order, without gaps or repeats. */
  lemma OrdinalOrder(a: Date, b: Date)
    requires ValidDate(a) && ValidDate(b)
    ensures DateLeq(a, b) <==> Ordinal(a) <= Ordinal(b)
    ensures a == b <==> Ordinal(a) == Ordinal(b)
  {
    OrdinalWithinYear(a);
    OrdinalWithinYear(b);
    if a.year < b.year {
      DaysBeforeYearMonotone(a.year, b.year);
    } else if b.year < a.year {
      DaysBeforeYearMonotone(b.year, a.year);
    } else if a.month < b.month {
      DaysBeforeMonthMonotone(a.year, a.month, b.month);
    } else if b.month < a.month {
      DaysBeforeMonthMonotone(a.year, b.month, a.month);
    }
  }

  // ------------------------------------------------------------------
  // Rendering
  // ------------------------------------------------------------------

  /** `strftime("%Y-%m-%d")` and `date.isoformat()`. */
  /** A date whose fields fit the widths of "%Y-%m-%d". */
  predicate FitsIso(d: Date) { 0 <= d.year <= 9999 && 0 <= d.month <= 99 && 0 <= d.day <= 99 }

  function FormatIso(d: Date): (s: string)
    requires FitsIso(d)
    ensures |s| == 10
  {
    Pad4(d.year) + "-" + Pad2(d.month) + "-" + Pad2(d.day)
  }

  /** Comparing two "%Y-%m-%d" strings with Python's `<=` compares the dates they write. */
  lemma IsoOrderIsDateOrder(a: Date, b: Date)
    requires ValidDate(a) && ValidDate(b)
    ensures LexLeq(FormatIso(a), FormatIso(b)) <==> DateLeq(a, b)
  {
    if a.year != b.year {
      IsoOrderYears(a, b);
    } else if a.month != b.month {
      IsoOrderMonths(a, b);
    } else {
      IsoOrderDays(a, b);
    }
  }

  /** Dates of different years compare as their "%Y" fields. */
  lemma IsoOrderYears(a: Date, b: Date)
    requires ValidDate(a) && ValidDate(b) && a.year != b.year
    ensures LexLeq(FormatIso(a), FormatIso(b)) <==> a.year < b.year
  {
    var ya, yb := Pad4(a.year), Pad4(b.year);
    var ra, rb := "-" + (Pad2(a.month) + ("-" + Pad2(a.day))), "-" + (Pad2(b.month) + ("-" + Pad2(b.day)));
    assert FormatIso(a) == ya + ra;
    assert FormatIso(b) == yb + rb;
    assert ya != yb by {
      assert DigitsValue(ya) != DigitsValue(yb);
    }
    LexLeqFirstDifference(ya, ra, yb, rb);
    LexLeqPad4(a.year, b.year);
  }

  /** Dates of the same year and different months compare as their "%m" fields. */
  lemma IsoOrderMonths(a: Date, b: Date)
    requires ValidDate(a) && ValidDate(b) && a.year == b.year && a.month != b.month
    ensures LexLeq(FormatIso(a), FormatIso(b)) <==> a.month < b.month
  {
    var p := Pad4(a.year) + "-";
    var ma, mb := Pad2(a.month), Pad2(b.month);
    var ta, tb := "-" + Pad2(a.day), "-" + Pad2(b.day);
    assert FormatIso(a) == p + (ma + ta);
    assert FormatIso(b) == p + (mb + tb);
    LexLeqCommonPrefix(p, ma + ta, mb + tb);
    assert ma != mb by {
      assert DigitsValue(ma) != DigitsValue(mb);
    }
    LexLeqFirstDifference(ma, ta, mb, tb);
    LexLeqPad2(a.month, b.month);
  }

  /** Dates of the same year and month compare as their "%d" fields. */
  lemma IsoOrderDays(a: Date, b: Date)
    requires ValidDate(a) && ValidDate(b) && a.year == b.year && a.month == b.month
    ensures LexLeq(FormatIso(a), FormatIso(b)) <==> a.day <= b.day
  {
    var p := Pad4(a.year) + "-" + Pad2(a.month) + "-";
    var da, db := Pad2(a.day), Pad2(b.day);
    assert FormatIso(a) == p + da;
    assert FormatIso(b) == p + db;
    LexLeqCommonPrefix(p, da, db);
    LexLeqPad2(a.day, b.day);
  }

  /** `strftime("%d/%m/%Y")`, the Brazilian day/month/year layout. */
  function FormatBr(d: Date): (s: string)
    requires ValidDate(d)
    ensures |s| == 10
  {
    Pad2(d.day) + "/" + Pad2(d.month) + "/" + Pad4(d.year)
  }

  /** `strftime("%H:%M")` of a minute of the day. */
  function FormatHourMinute(minute: int): (s: string)
    requires 0 <= minute < 1440
    ensures |s| == 5
  {
    Pad2(minute / 60) + ":" + Pad2(minute % 60)
  }

  // ------------------------------------------------------------------
  // strptime
  // ------------------------------------------------------------------

  /** A matched directive: its numeric value and the number of characters it consumed. */
  datatype Token = Token(value: int, length: nat)

  predicate DigitIn(s: string, i: int, lo: char, hi: char) { 0 <= i < |s| && lo <= s[i] <= hi }

  function Num2(s: string, i: nat): int
    requires i + 1 < |s| && IsDigit(s[i]) && IsDigit(s[i + 1])
  {
    DigitValue(s[i]) * 10 + DigitValue(s[i + 1])
  }

  /** strptime's `%m` at position i: the first alternative of 1[0-2] | 0[1-9] | [1-9] that matches. */
  function MonthToken(s: string, i: nat): (t: Option<Token>)
    ensures t.Some? ==> 1 <= t.value.value <= 12 && 1 <= t.value.length <= 2 && i + t.value.length <= |s|
  {
    if DigitIn(s, i, '1', '1') && DigitIn(s, i + 1, '0', '2') then Some(Token(Num2(s, i), 2))
    else if DigitIn(s, i, '0', '0') && DigitIn(s, i + 1, '1', '9') then Some(Token(Num2(s, i), 2))
    else if DigitIn(s, i, '1', '9') then Some(Token(DigitValue(s[i]), 1))
    else None
  }

  /** strptime's `%d` at position i: the first alternative of 3[01] | [12]\d | 0[1-9] | [1-9] | ' '[1-9] that matches. */
  function DayToken(s: string, i: nat): (t: Option<Token>)
    ensures t.Some? ==> 1 <= t.value.value <= 31 && 1 <= t.value.length <= 2 && i + t.value.length <= |s|
  {
    if DigitIn(s, i, '3', '3') && DigitIn(s, i + 1, '0', '1') then Some(Token(Num2(s, i), 2))
    else if DigitIn(s, i, '1', '2') && DigitIn(s, i + 1, '0', '9') then Some(Token(Num2(s, i), 2))
    else if DigitIn(s, i, '0', '0') && DigitIn(s, i + 1, '1', '9') then Some(Token(Num2(s, i), 2))
    else if DigitIn(s, i, '1', '9') then Some(Token(DigitValue(s[i]), 1))
    else if i < |s| && s[i] == ' ' && DigitIn(s, i + 1, '1', '9') then Some(Token(DigitValue(s[i + 1]), 2))
    else None
  }

  /**
   * `datetime.strptime(s, "%Y-%m-%d")`: four digits, '-', a month, '-', a day,
   * nothing after, and a date that exists; None where Python raises ValueError.
   */
  function StrptimeIsoDate(s: string): (r: Option<Date>)
    ensures r.Some? ==> ValidDate(r.value)
  {
    if |s| < 5 || !AllDigits(s[..4]) || s[4] != '-' then None
    else
      match MonthToken(s, 5)
      case None => None
      case Some(m) =>
        var j := 5 + m.length;
        if j >= |s| || s[j] != '-' then None
        else
          match DayToken(s, j + 1)
          case None => None
          case Some(d) =>
            var date := Date(DigitsValue(s[..4]), m.value, d.value);
            if j + 1 + d.length == |s| && ValidDate(date) then Some(date) else None
  }

  /** Every date Python can represent is read back from its "%Y-%m-%d" rendering. */
  lemma StrptimeIsoDateRoundTrip(d: Date)
    requires ValidDate(d)
    ensures StrptimeIsoDate(FormatIso(d)) == Some(d)
  {
    var s := FormatIso(d);
    assert s[..4] == Pad4(d.year);
    assert s[5..7] == Pad2(d.month) && s[8..10] == Pad2(d.day);
    DigitsValuePair(Pad2(d.month));
    DigitsValuePair(Pad2(d.day));
    StrptimeIsoDateOfDigits(s, d);
  }

  /** A "%Y-%m-%d"-shaped text with two-digit month and day fields is read as the date those fields write. */
  lemma StrptimeIsoDateOfDigits(s: string, d: Date)
    requires |s| == 10 && AllDigits(s[..4]) && s[4] == '-' && s[7] == '-'
    requires IsDigit(s[5]) && IsDigit(s[6]) && IsDigit(s[8]) && IsDigit(s[9])
    requires ValidDate(d) && d == Date(DigitsValue(s[..4]), Num2(s, 5), Num2(s, 8))
    ensures StrptimeIsoDate(s) == Some(d)
  {
    MonthTokenTwoDigits(s, 5);
    DayTokenTwoDigits(s, 8);
  }

  /** A two-digit month from 01 to 12 is matched whole by `%m`. */
  lemma MonthTokenTwoDigits(s: string, i: nat)
    requires i + 1 < |s| && IsDigit(s[i]) && IsDigit(s[i + 1]) && 1 <= Num2(s, i) <= 12
    ensures MonthToken(s, i) == Some(Token(Num2(s, i), 2))
  {
  }

  /** A two-digit day from 01 to 31 is matched whole by `%d`. */
  lemma DayTokenTwoDigits(s: string, i: nat)
    requires i + 1 < |s| && IsDigit(s[i]) && IsDigit(s[i + 1]) && 1 <= Num2(s, i) <= 31
    ensures DayToken(s, i) == Some(Token(Num2(s, i), 2))
  {
  }

  /** strptime's `%H` at position 0: the first alternative of 2[0-3] | [0-1]\d | \d that matches. */
  function HourToken(s: string): (t: Option<Token>)
    ensures t.Some? ==> 0 <= t.value.value <= 23 && 1 <= t.value.length <= 2 && t.value.length <= |s|
  {
    if DigitIn(s, 0, '2', '2') && DigitIn(s, 1, '0', '3') then Some(Token(Num2(s, 0), 2))
    else if DigitIn(s, 0, '0', '1') && DigitIn(s, 1, '0', '9') then Some(Token(Num2(s, 0), 2))
    else if DigitIn(s, 0, '0', '9') then Some(Token(DigitValue(s[0]), 1))
    else None
  }

  /** strptime's `%M` at position i: the first alternative of [0-5]\d | \d that matches. */
  function MinuteToken(s: string, i: nat): (t: Option<Token>)
    ensures t.Some? ==> 0 <= t.value.value <= 59 && 1 <= t.value.length <= 2 && i + t.value.length <= |s|
  {
    if DigitIn(s, i, '0', '5') && DigitIn(s, i + 1, '0', '9') then Some(Token(Num2(s, i), 2))
    else if DigitIn(s, i, '0', '9') then Some(Token(DigitValue(s[i]), 1))
    else None
  }

  /**
   * `datetime.strptime(s, "%H:%M")` as a minute of the day: an hour of one or
   * two digits up to 23, ':', a minute of one or two digits up to 59, nothing
   * after; None where Python raises ValueError.
   */
  function StrptimeHourMinute(s: string): (r: Option<int>)
    ensures r.Some? ==> 0 <= r.value < 1440
  {
    match HourToken(s)
    case None => None
    case Some(h) =>
      if h.length >= |s| || s[h.length] != ':' then None
      else
        match MinuteToken(s, h.length + 1)
        case None => None
        case Some(m) => if h.length + 1 + m.length == |s| then Some(h.value * 60 + m.value) else None
  }

  /** Every minute of the day is read back from its "%H:%M" rendering. */
  lemma StrptimeHourMinuteRoundTrip(minute: int)
    requires 0 <= minute < 1440
    ensures StrptimeHourMinute(FormatHourMinute(minute)) == Some(minute)
  {
    var s := FormatHourMinute(minute);
    assert s[..2] == Pad2(minute / 60) && s[3..] == Pad2(minute % 60);
    DigitsValuePair(Pad2(minute / 60));
    DigitsValuePair(Pad2(minute % 60));
  }

  /** Times a single digit allows, like "7:5", are accepted as strptime accepts them. */
  lemma StrptimeHourMinuteShortForm()
    ensures StrptimeHourMinute("7:5") == Some(7 * 60 + 5)
    ensures StrptimeHourMinute("24:00") == None
    ensures StrptimeHourMinute("07:60") == None
    ensures StrptimeHourMinute(" 7:05") == None
  {
    assert DigitValue('7') == 7 && DigitValue('5') == 5;
  }

  // ------------------------------------------------------------------
  // Moments
  // ------------------------------------------------------------------

  /** A `datetime` with whole seconds: a date and the second of that day. */
  datatype DateTime = DateTime(date: Date, second: int)

  predicate ValidDateTime(t: DateTime) { ValidDate(t.date) && 0 <= t.second < 86400 }

  /** Seconds since 0001-01-01 00:00:00, so that differences of datetimes are differences of these. */
  function Timestamp(t: DateTime): int
    requires ValidDateTime(t)
  {
    (Ordinal(t.date) - 1) * 86400 + t.second
  }
}
