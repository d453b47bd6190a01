/**
 * The admin dashboards' period handling: the date range of a month, the
 * description of the selected period, the month list of the filter forms,
 * the month defaulting of the filters, the months of the comparison
 * dashboard and the removal of empty filters.
 */
module Dashboard {
  import opened Common
  import opened Calendar

  // ------------------------------------------------------------------
  // Date range of a month
  // ------------------------------------------------------------------

  /** The month `datetime` accepts, in the year range it accepts. */
  predicate MonthInRange(year: int, month: int)
  {
    1 <= year <= 9999 && 1 <= month <= 12
  }

  /** The last day of a month is the day before the first of the next one. */
  lemma LastDayIsDayBeforeNextMonth(y: int, m: int)
    requires 1 <= y <= 9999 && 1 <= m < 12
    ensures ValidDate(Date(y, m + 1, 1)) && ValidDate(Date(y, m, DaysInMonth(y, m)))
    ensures PrevDay(Date(y, m + 1, 1)) == Some(Date(y, m, DaysInMonth(y, m)))
  {
    var last := Date(y, m, DaysInMonth(y, m));
    DaysBeforeMonthBounds(y, m);
    assert Ordinal(last) == Ordinal(Date(y, m + 1, 1)) - 1;
    OrdinalOrder(PrevDay(Date(y, m + 1, 1)).value, last);
  }

  /**
   * `_get_date_range_from_month`: None when the month is missing, 0, or
   * outside 1..12, or when `datetime` refuses the year; otherwise the first
   * day of the month and its last day (31 December, or the day before the
   * first of the next month), rendered "%Y-%m-%d".
   */
  function DateRangeFromMonth(year: int, month: Option<int>): (r: Option<(string, string)>)
    ensures r.Some? <==> TruthyInt(month) && MonthInRange(year, month.value)
    ensures r.Some? ==>
      (ValidDate(Date(year, month.value, 1)) && ValidDate(Date(year, month.value, DaysInMonth(year, month.value)))
       && r.value.0 == FormatIso(Date(year, month.value, 1))
       && r.value.1 == FormatIso(Date(year, month.value, DaysInMonth(year, month.value))))
  {
    if !TruthyInt(month) || !(1 <= month.value <= 12) then None
    else if !(1 <= year <= 9999) then None
    else
      var m := month.value;
      var start := Date(year, m, 1);
      var end := if m == 12 then Date(year, 12, 31)
                 else (LastDayIsDayBeforeNextMonth(year, m); PrevDay(Date(year, m + 1, 1)).value);
      Some((FormatIso(start), FormatIso(end)))
  }

  /** Both ends of a month's range read back as dates of that month, and the start is not after the end, also as strings. */
  lemma DateRangeFromMonthOrdered(year: int, month: int)
    requires MonthInRange(year, month)
    ensures DateRangeFromMonth(year, Some(month)).Some?
    ensures StrptimeIsoDate(DateRangeFromMonth(year, Some(month)).value.0) == Some(Date(year, month, 1))
    ensures StrptimeIsoDate(DateRangeFromMonth(year, Some(month)).value.1) == Some(Date(year, month, DaysInMonth(year, month)))
    ensures LexLeq(DateRangeFromMonth(year, Some(month)).value.0, DateRangeFromMonth(year, Some(month)).value.1)
  {
    var start, end := Date(year, month, 1), Date(year, month, DaysInMonth(year, month));
    StrptimeIsoDateRoundTrip(start);
    StrptimeIsoDateRoundTrip(end);
    IsoOrderIsDateOrder(start, end);
  }

  // ------------------------------------------------------------------
  // Period description
  // ------------------------------------------------------------------

  /**
   * `_get_period_description`. `monthName` stands for the locale's `%B`
   * name, capitalised; `now` is the current (year, month). None where
   * `datetime(year, month, 1)` raises for the given month and the exception
   * leaves the function.
   */
  function PeriodDescription(year: int, month: Option<int>, startStr: string, endStr: string,
                             monthName: int -> string, now: (int, int)): (r: Option<string>)
    requires MonthInRange(now.0, now.1)
    ensures TruthyInt(month) && year != 0 ==>
      (r.Some? <==> MonthInRange(year, month.value))
      && (r.Some? ==> r.value == "Referente a " + monthName(month.value) + " de " + IntToString(year))
    ensures !(TruthyInt(month) && year != 0) && startStr != "" && endStr != "" ==>
      r.Some?
      && (StrptimeIsoDate(startStr).None? || StrptimeIsoDate(endStr).None? <==> r.value == "Período de data personalizado")
      && (StrptimeIsoDate(startStr).Some? && StrptimeIsoDate(endStr).Some? ==>
            var s, e := StrptimeIsoDate(startStr).value, StrptimeIsoDate(endStr).value;
            (s == e ==> r.value == "Referente ao dia " + FormatBr(s))
            && (s != e ==> r.value == "Período de " + FormatBr(s) + " a " + FormatBr(e)))
    ensures !(TruthyInt(month) && year != 0) && (startStr == "" || endStr == "") ==>
      r == Some("Referente a " + monthName(now.1) + " de " + IntToString(now.0))
  {
    if TruthyInt(month) && year != 0 then
      if MonthInRange(year, month.value) then Some("Referente a " + monthName(month.value) + " de " + IntToString(year))
      else None
    else if startStr != "" && endStr != "" then
      match (StrptimeIsoDate(startStr), StrptimeIsoDate(endStr))
      case (Some(s), Some(e)) =>
        if s == e then Some("Referente ao dia " + FormatBr(s))
        else Some("Período de " + FormatBr(s) + " a " + FormatBr(e))
      case _ => Some("Período de data personalizado")
    else Some("Referente a " + monthName(now.1) + " de " + IntToString(now.0))
  }

  /** strptime reads "2024-1-5", without zero padding, as the same date it reads from "2024-01-05". */
  lemma UnpaddedIsoDate()
    ensures StrptimeIsoDate("2024-1-5") == Some(Date(2024, 1, 5))
    ensures StrptimeIsoDate("2024-01-05") == Some(Date(2024, 1, 5))
  {
    StrptimeShortFields();
    assert FormatIso(Date(2024, 1, 5)) == "2024-01-05";
    StrptimeIsoDateRoundTrip(Date(2024, 1, 5));
  }

  /** `%m` and `%d` accept one-digit fields. */
  lemma StrptimeShortFields()
    ensures StrptimeIsoDate("2024-1-5") == Some(Date(2024, 1, 5))
  {
    var s := "2024-1-5";
    assert s[..4] == "2024";
    assert "2024"[..3] == "202" && "202"[..2] == "20" && "20"[..1] == "2" && "2"[..0] == "";
    assert DigitsValue("2024") == 2024;
    assert MonthToken(s, 5) == Some(Token(1, 1));
    assert DayToken(s, 7) == Some(Token(5, 1));
  }

  /** Two different texts of the same date describe a single day: the comparison is between parsed dates. */
  lemma SameDayWrittenTwoWays(monthName: int -> string)
    ensures PeriodDescription(2024, None, "2024-1-5", "2024-01-05", monthName, (2024, 1))
         == Some("Referente ao dia " + FormatBr(Date(2024, 1, 5)))
  {
    UnpaddedIsoDate();
  }

  // ------------------------------------------------------------------
  // Months of the year
  // ------------------------------------------------------------------

  datatype Mes = Mes(id: int, nome: string)

  /** `_get_months_of_year`: the twelve months in order; the name depends only on the month. */
  method MonthsOfYear(monthName: int -> string) returns (meses: seq<Mes>)
    ensures |meses| == 12
    ensures forall i :: 0 <= i < 12 ==> meses[i] == Mes(i + 1, monthName(i + 1))
  {
    meses := [];
    var i := 1;
    while i < 13
      invariant 1 <= i <= 13
      invariant |meses| == i - 1
      invariant forall j :: 0 <= j < i - 1 ==> meses[j] == Mes(j + 1, monthName(j + 1))
    {
      meses := meses + [Mes(i, monthName(i))];
      i := i + 1;
    }
  }

  // ------------------------------------------------------------------
  // Month defaulting of the dashboard filters
  // ------------------------------------------------------------------

  /** The period entries of a dashboard's `filters` dictionary; the other entries are passed through untouched. */
  class PeriodFilters {
    var mes: Option<int>
    var dataInicio: string
    var dataFim: string

    constructor(mes: Option<int>, dataInicio: string, dataFim: string)
      ensures this.mes == mes && this.dataInicio == dataInicio && this.dataFim == dataFim
    {
      this.mes := mes;
      this.dataInicio := dataInicio;
      this.dataFim := dataFim;
    }

    /**
     * A month fills both dates only when neither date was given. When it
     * gives no range, the dashboard routes flash an error and clear `mes`
     * (`clearInvalid`); the PDF exports keep it. Returns whether the error
     * was flashed.
     */
    method ApplyMonth(currentYear: int, clearInvalid: bool) returns (invalid: bool)
      modifies this
      ensures var range := DateRangeFromMonth(currentYear, old(mes));
        if TruthyInt(old(mes)) && old(dataInicio) == "" && old(dataFim) == "" then
          (range.Some? ==> !invalid && mes == old(mes) && dataInicio == range.value.0 && dataFim == range.value.1)
          && (range.None? ==> invalid == clearInvalid && dataInicio == old(dataInicio) && dataFim == old(dataFim)
                              && mes == (if clearInvalid then None else old(mes)))
        else
          !invalid && mes == old(mes) && dataInicio == old(dataInicio) && dataFim == old(dataFim)
    {
      invalid := false;
      if TruthyInt(mes) && !(dataInicio != "" || dataFim != "") {
        var range := DateRangeFromMonth(currentYear, mes);
        if range.Some? {
          dataInicio := range.value.0;
          dataFim := range.value.1;
        } else if clearInvalid {
          invalid := true;
          mes := None;
        }
      }
    }
  }

  /** A date filter that the month filled is a whole month: its ends parse and are ordered. */
  lemma FilledRangeIsMonth(year: int, month: int)
    requires TruthyInt(Some(month)) && MonthInRange(year, month)
    ensures DateRangeFromMonth(year, Some(month)).Some?
    ensures StrptimeIsoDate(DateRangeFromMonth(year, Some(month)).value.0).Some?
    ensures StrptimeIsoDate(DateRangeFromMonth(year, Some(month)).value.1).Some?
    ensures DateLeq(StrptimeIsoDate(DateRangeFromMonth(year, Some(month)).value.0).value,
                    StrptimeIsoDate(DateRangeFromMonth(year, Some(month)).value.1).value)
  {
    DateRangeFromMonthOrdered(year, month);
  }

  // ------------------------------------------------------------------
  // Months of the comparison dashboard
  // ------------------------------------------------------------------

  /** `int(m)` of every part, or None as soon as one part is not an integer. */
  function ParseAll(parts: seq<string>): (r: Option<seq<int>>)
    ensures r.Some? <==> forall i :: 0 <= i < |parts| ==> PyInt(parts[i]).Some?
    ensures r.Some? ==> |r.value| == |parts| && forall i :: 0 <= i < |parts| ==> r.value[i] == PyInt(parts[i]).value
  {
    if |parts| == 0 then Some([])
    else match (PyInt(parts[0]), ParseAll(parts[1..]))
      case (Some(v), Some(rest)) => Some([v] + rest)
      case (None, _) => None
      case (_, None) =>
        assert forall i :: 1 <= i < |parts| ==> parts[1..][i - 1] == parts[i];
        None
  }

  predicate IsMonth(m: int) { 1 <= m <= 12 }

  /**
   * `selected_months` of `dashboard_comparativo`: in "single" mode the one
   * month when it is in 1..12; in "comparison" mode the comma-separated
   * parts in 1..12, in order, or nothing at all when some part is not an
   * integer; in any other mode nothing.
   */
  function SelectedMonths(mode: string, selectedMonth: Option<int>, monthsStr: string): (r: seq<int>)
    ensures forall m :: m in r ==> IsMonth(m)
    ensures mode == "single" ==> r == (if TruthyInt(selectedMonth) && IsMonth(selectedMonth.value) then [selectedMonth.value] else [])
    ensures mode == "comparison" && monthsStr != "" && ParseAll(Split(monthsStr, ',')).Some? ==>
      r == Filter(ParseAll(Split(monthsStr, ',')).value, IsMonth)
    ensures mode == "comparison" && ParseAll(Split(monthsStr, ',')).None? ==> r == []
    ensures mode != "single" && mode != "comparison" ==> r == []
  {
    if mode == "single" then
      if TruthyInt(selectedMonth) && IsMonth(selectedMonth.value) then [selectedMonth.value] else []
    else if mode == "comparison" && monthsStr != "" then
      match ParseAll(Split(monthsStr, ','))
      case Some(values) => Filter(values, IsMonth)
      case None => []
    else []
  }

  /** The months picked in comparison mode are, in order, the parts that name a month. */
  lemma SelectedMonthsKeepsOrder(a: seq<int>, b: seq<int>)
    ensures Filter(a + b, IsMonth) == Filter(a, IsMonth) + Filter(b, IsMonth)
  {
    FilterAppend(a, b, IsMonth);
  }

  /** Only parts that name a month are dropped: every value in 1..12 is kept. */
  lemma SelectedMonthsComplete(values: seq<int>, m: int)
    requires m in values && IsMonth(m)
    ensures m in Filter(values, IsMonth)
  {
    FilterKeeps(values, IsMonth, m);
  }

  // ------------------------------------------------------------------
  // Removal of empty filters
  // ------------------------------------------------------------------

  /** A filter value as the dashboards read it: an optional integer or a text. */
  datatype FilterValue = NoValue | IntValue(i: int) | TextValue(s: string)

  /** `v not in [None, ""]`: 0 is kept, as Python's `in` compares with `==`. */
  predicate NotEmpty(entry: (string, FilterValue))
  {
    entry.1 != NoValue && entry.1 != TextValue("")
  }

  /** `{k: v for k, v in filters.items() if v not in [None, ""]}`, on the entries in insertion order. */
  function CleanFilters(filters: seq<(string, FilterValue)>): (r: seq<(string, FilterValue)>)
    ensures forall e :: e in r <==> e in filters && NotEmpty(e)
  {
    var r := Filter(filters, NotEmpty);
    assert forall e :: e in filters && NotEmpty(e) ==> e in r by {
      forall e | e in filters && NotEmpty(e)
        ensures e in r
      {
        FilterKeeps(filters, NotEmpty, e);
      }
    }
    r
  }
}
