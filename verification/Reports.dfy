/**
 * The reports page (src/pages/Reports.js): the guard and the state reset
 * of a report fetch, the preset date windows, the merge of realized and
 * unrealized profit/loss per asset, the gate of the investment section,
 * the category list, and the sign of the net balance.
 *
 * Dates are calendar dates (proleptic Gregorian). A date input holds ""
 * or a date, so it is an `Option<Date>`. Amounts are reals.
 */
module Reports {
  import opened Common

  datatype CalendarDate = CalendarDate(year: int, month: int, day: int)

  predicate IsLeapYear(y: int) {
    (y % 4 == 0 && y % 100 != 0) || y % 400 == 0
  }

  function DaysInMonth(y: int, m: int): (n: int)
    requires 1 <= m <= 12
    ensures 28 <= n <= 31
    ensures m == 2 ==> (n == 29 <==> IsLeapYear(y))
  {
    if m == 2 then (if IsLeapYear(y) then 29 else 28)
    else if m == 4 || m == 6 || m == 9 || m == 11 then 30
    else 31
  }

  predicate ValidDate(d: CalendarDate) {
    1 <= d.month <= 12 && 1 <= d.day <= DaysInMonth(d.year, d.month)
  }

  /** A date a JavaScript `Date` can stand for. */
  type Date = d: CalendarDate | ValidDate(d) witness CalendarDate(2000, 1, 1)

  /** The year and 1-based month that a JavaScript month index lands in. */
  function MonthOf(year: int, monthIndex: int): (ym: (int, int))
    ensures 1 <= ym.1 <= 12
    ensures (ym.0 - year) * 12 + ym.1 - 1 == monthIndex
  {
    (year + monthIndex / 12, monthIndex % 12 + 1)
  }

  /**
   * `new Date(year, monthIndex, day)`: a month index outside 0..11 moves
   * into another year, and a day outside the month moves into the
   * neighbouring months (day 0 is the last day of the previous month).
   */
  function JsDate(year: int, monthIndex: int, day: int): (d: Date)
    decreases if day < 1 then 1 else 0, if day < 1 then -day else day
  {
    var (y, m) := MonthOf(year, monthIndex);
    if day < 1 then
      var (py, pm) := MonthOf(year, monthIndex - 1);
      JsDate(year, monthIndex - 1, day + DaysInMonth(py, pm))
    else if day <= DaysInMonth(y, m) then
      CalendarDate(y, m, day)
    else
      JsDate(year, monthIndex + 1, day - DaysInMonth(y, m))
  }

  /** `new Date(y, m, d)` is the date itself when the arguments are in range. */
  lemma JsDateInRange(y: int, monthIndex: int, day: int)
    requires 0 <= monthIndex <= 11 && 1 <= day <= DaysInMonth(y, monthIndex + 1)
    ensures JsDate(y, monthIndex, day) == CalendarDate(y, monthIndex + 1, day)
  {
  }

  /** `new Date(y, m, 0)` is the last day of the month before month index m. */
  lemma JsDateDayZero(y: int, monthIndex: int)
    ensures JsDate(y, monthIndex, 0) ==
      CalendarDate(MonthOf(y, monthIndex - 1).0, MonthOf(y, monthIndex - 1).1,
                   DaysInMonth(MonthOf(y, monthIndex - 1).0, MonthOf(y, monthIndex - 1).1))
  {
    var (py, pm) := MonthOf(y, monthIndex - 1);
    assert JsDate(y, monthIndex, 0) == JsDate(y, monthIndex - 1, DaysInMonth(py, pm));
  }

  const ThisMonth: string := "this_month"
  const LastMonth: string := "last_month"
  const ThisYear: string := "this_year"

  /** The `switch` of `handlePeriodChange`: the window of a preset, or None for any other period. */
  function PeriodWindow(period: string, today: Date): Option<(Date, Date)> {
    var y, mi := today.year, today.month - 1;  // getFullYear(), getMonth()
    if period == ThisMonth then Some((JsDate(y, mi, 1), JsDate(y, mi + 1, 0)))
    else if period == LastMonth then Some((JsDate(y, mi - 1, 1), JsDate(y, mi, 0)))
    else if period == ThisYear then Some((JsDate(y, 0, 1), JsDate(y, 11, 31)))
    else None
  }

  /** `this_month`: from the first to the last day of the current month. */
  lemma ThisMonthWindow(today: Date)
    ensures PeriodWindow(ThisMonth, today) ==
      Some((CalendarDate(today.year, today.month, 1),
            CalendarDate(today.year, today.month, DaysInMonth(today.year, today.month))))
  {
    JsDateInRange(today.year, today.month - 1, 1);
    JsDateDayZero(today.year, today.month);
  }

  /** `last_month`: the whole previous month, which is December of the previous year in January. */
  lemma LastMonthWindow(today: Date)
    ensures today.month > 1 ==>
      (PeriodWindow(LastMonth, today) ==
       Some((CalendarDate(today.year, today.month - 1, 1),
             CalendarDate(today.year, today.month - 1, DaysInMonth(today.year, today.month - 1)))))
    ensures today.month == 1 ==>
      (PeriodWindow(LastMonth, today) ==
       Some((CalendarDate(today.year - 1, 12, 1), CalendarDate(today.year - 1, 12, 31))))
  {
    JsDateDayZero(today.year, today.month - 1);
    if today.month > 1 {
      JsDateInRange(today.year, today.month - 2, 1);
    } else {
      assert MonthOf(today.year, -1) == (today.year - 1, 12);
      assert JsDate(today.year, -1, 1) == CalendarDate(today.year - 1, 12, 1);
    }
  }

  /** `this_year`: from January 1 to December 31 of the current year. */
  lemma ThisYearWindow(today: Date)
    ensures PeriodWindow(ThisYear, today) ==
      Some((CalendarDate(today.year, 1, 1), CalendarDate(today.year, 12, 31)))
  {
    JsDateInRange(today.year, 0, 1);
    JsDateInRange(today.year, 11, 31);
  }

  /** Only the three presets move the dates. */
  lemma OtherPeriodsHaveNoWindow(period: string, today: Date)
    ensures PeriodWindow(period, today).None? <==> (period != ThisMonth && period != LastMonth && period != ThisYear)
  {
  }

  /**
   * The per-asset maps of the profit/loss response, each of which may be
   * absent: realized and unrealized figures, and `profitLossByAsset`, the
   * map the investment section lists.
   */
  datatype ProfitLoss = ProfitLoss(
    realized: Option<map<string, real>>, unrealized: Option<map<string, real>>, byAsset: Option<map<string, real>>)

  function OrEmpty(m: Option<map<string, real>>): map<string, real> {
    if m.Some? then m.value else map[]
  }

  /**
   * `getCombinedProfitLossData`: every asset of either map, with the
   * unrealized figure winning where both have one.
   */
  function CombinedProfitLoss(data: Option<ProfitLoss>): (r: map<string, real>)
    ensures data.None? ==> r == map[]
    ensures data.Some? ==> r.Keys == OrEmpty(data.value.realized).Keys + OrEmpty(data.value.unrealized).Keys
    ensures data.Some? ==> forall asset :: asset in OrEmpty(data.value.unrealized) ==>
              r[asset] == OrEmpty(data.value.unrealized)[asset]
    ensures data.Some? ==> forall asset ::
              (asset in OrEmpty(data.value.realized) && asset !in OrEmpty(data.value.unrealized)) ==>
              r[asset] == OrEmpty(data.value.realized)[asset]
  {
    if data.None? || (data.value.realized.None? && data.value.unrealized.None?) then map[]
    else OrEmpty(data.value.realized) + OrEmpty(data.value.unrealized)
  }

  /**
   * `hasInvestmentData`: the merged map has an asset. The page computes
   * this value on every render but never reads it.
   */
  predicate HasInvestmentData(data: Option<ProfitLoss>) {
    |CombinedProfitLoss(data)| > 0
  }

  /** Without data, or with both maps absent, `hasInvestmentData` is false. */
  lemma NoInvestmentDataWhenAbsent(data: Option<ProfitLoss>)
    requires data.None? || (data.value.realized.None? && data.value.unrealized.None?)
    ensures !HasInvestmentData(data)
  {
    assert CombinedProfitLoss(data) == map[];
  }

  /**
   * The gate of the investment section: inside the report block (a
   * summary is present), with `profitLossByAsset` present and non-empty.
   */
  predicate ShowsInvestmentSection(report: Option<Summary>, data: Option<ProfitLoss>) {
    report.Some? && data.Some? && data.value.byAsset.Some? && |data.value.byAsset.value| > 0
  }

  /**
   * The section depends on `profitLossByAsset` alone: replacing the
   * realized and unrealized maps never shows or hides it, so the merged
   * map does not reach the screen.
   */
  lemma InvestmentSectionIgnoresMerge(report: Option<Summary>, data: ProfitLoss,
                                      realized: Option<map<string, real>>, unrealized: Option<map<string, real>>)
    ensures ShowsInvestmentSection(report, Some(data.(realized := realized, unrealized := unrealized)))
            == ShowsInvestmentSection(report, Some(data))
    ensures ShowsInvestmentSection(report, Some(data)) <==> report.Some? && |OrEmpty(data.byAsset)| > 0
  {
  }

  /** The section and `hasInvestmentData` disagree both ways. */
  lemma InvestmentSectionDisagreesWithMerge()
    ensures var d := ProfitLoss(None, None, Some(map["USD/TRY" := 12.5]));
            ShowsInvestmentSection(Some(Summary(None, None)), Some(d)) && !HasInvestmentData(Some(d))
    ensures var d := ProfitLoss(Some(map["USD/TRY" := 12.5]), None, None);
            !ShowsInvestmentSection(Some(Summary(None, None)), Some(d)) && HasInvestmentData(Some(d))
  {
    var d := ProfitLoss(Some(map["USD/TRY" := 12.5]), None, None);
    assert "USD/TRY" in CombinedProfitLoss(Some(d));
  }

  /** The class of an asset's row and of the total: positive only above zero. */
  function InvestmentItemClass(profitLoss: real): (c: string)
    ensures c == "investment-positive" <==> profitLoss > 0.0
    ensures c == "investment-negative" <==> profitLoss <= 0.0
  {
    if profitLoss > 0.0 then "investment-positive" else "investment-negative"
  }

  datatype CategoryRow = CategoryRow(category: string, amount: real)

  /** `Object.entries(categoryResult).map(([category, amount]) => ({category, amount}))`. */
  function CategoryRows(entries: seq<(string, real)>): (rows: seq<CategoryRow>)
    ensures |rows| == |entries|
    ensures forall i :: 0 <= i < |entries| ==> rows[i] == CategoryRow(entries[i].0, entries[i].1)
  {
    if entries == [] then [] else [CategoryRow(entries[0].0, entries[0].1)] + CategoryRows(entries[1..])
  }

  /** The totals of the summary response; either may be missing. */
  datatype Summary = Summary(totalIncome: Option<real>, totalExpense: Option<real>)

  /** `x || 0`. */
  function OrZero(x: Option<real>): real {
    if x.Some? then x.value else 0.0
  }

  function NetBalance(s: Summary): real {
    OrZero(s.totalIncome) - OrZero(s.totalExpense)
  }

  /** The class of the net balance figure. */
  function NetBalanceClass(s: Summary): (c: string)
    ensures c == "amount-positive" <==> NetBalance(s) >= 0.0
    ensures c == "amount-negative" <==> NetBalance(s) < 0.0
  {
    if NetBalance(s) >= 0.0 then "amount-positive" else "amount-negative"
  }

  /** A missing total counts as zero: the sign depends only on the totals present. */
  lemma NetBalanceSign(s: Summary)
    ensures s.totalIncome.None? && s.totalExpense.None? ==> NetBalanceClass(s) == "amount-positive"
    ensures s.totalIncome.None? && s.totalExpense.Some? ==>
              (NetBalanceClass(s) == "amount-positive" <==> s.totalExpense.value <= 0.0)
    ensures s.totalIncome.Some? && s.totalExpense.None? ==>
              (NetBalanceClass(s) == "amount-positive" <==> s.totalIncome.value >= 0.0)
    ensures s.totalIncome.Some? && s.totalExpense.Some? ==>
              (NetBalanceClass(s) == "amount-positive" <==> s.totalIncome.value >= s.totalExpense.value)
  {
  }

  /** The outcome of one REST call. */
  datatype Outcome<T> = Success(value: T) | Failure

  /** The category request: threw, answered with a non-2xx status, or answered with entries. */
  datatype CategoryResponse = CategoryThrew | CategoryNotOk | CategoryOk(entries: seq<(string, real)>)

  /** A REST request the page made. */
  datatype Request =
    | SummaryRequest(start: Date, end: Date)
    | CategoryRequest(start: Date, end: Date, kind: string)
    | ProfitLossRequest(start: Date, end: Date)

  /** The two filters; `kind` is the source's `type` (a reserved word here). */
  datatype Filters = Filters(kind: string, period: string)

  const AllTypes: string := "ALL"
  const MissingRangeError: string := "Lütfen bir tarih aralığı seçin."
  const FetchError: string := "Raporlar yüklenirken bir hata oluştu."

  class ReportsPage {
    var startDate: Option<Date>
    var endDate: Option<Date>
    var reportData: Option<Summary>
    var categoryData: seq<CategoryRow>
    var profitLossData: Option<ProfitLoss>
    var loading: bool
    var error: string
    var filters: Filters
    /** The REST requests made, in order. */
    ghost var requests: seq<Request>

    constructor ()
      ensures startDate == None && endDate == None && reportData == None && categoryData == []
      ensures profitLossData == None && !loading && error == "" && filters == Filters(AllTypes, "custom")
      ensures requests == []
    {
      startDate := None;
      endDate := None;
      reportData := None;
      categoryData := [];
      profitLossData := None;
      loading := false;
      error := "";
      filters := Filters(AllTypes, "custom");
      requests := [];
    }

    /**
     * `handleFetchReports`, with the outcomes of the three requests as
     * parameters. Without both dates only the error is set. Otherwise the
     * results are cleared first; the summary comes first and a failure
     * there ends the fetch; the category breakdown is asked for only when
     * the type filter is not ALL, and its failures are swallowed; a failed
     * profit/loss request sets the error but keeps the summary.
     */
    method FetchReports(summary: Outcome<Summary>, category: CategoryResponse, profitLoss: Outcome<ProfitLoss>)
      modifies this`loading, this`error, this`reportData, this`categoryData, this`profitLossData, this`requests
      ensures old(startDate.None? || endDate.None?) ==>
        && error == MissingRangeError && loading == old(loading) && requests == old(requests)
        && reportData == old(reportData) && categoryData == old(categoryData) && profitLossData == old(profitLossData)
      ensures old(startDate.Some? && endDate.Some?) ==>
        && !loading
        && reportData == (if summary.Success? then Some(summary.value) else None)
        && categoryData == (if summary.Success? && filters.kind != AllTypes && category.CategoryOk?
                            then CategoryRows(category.entries) else [])
        && profitLossData == (if summary.Success? && profitLoss.Success? then Some(profitLoss.value) else None)
        && error == (if summary.Success? && profitLoss.Success? then "" else FetchError)
        && (ShowsInvestmentSection(reportData, profitLossData) <==>
              summary.Success? && profitLoss.Success? && |OrEmpty(profitLoss.value.byAsset)| > 0)
        && requests == old(requests) + [SummaryRequest(startDate.value, endDate.value)]
             + (if summary.Success? && filters.kind != AllTypes
                then [CategoryRequest(startDate.value, endDate.value, filters.kind)] else [])
             + (if summary.Success? then [ProfitLossRequest(startDate.value, endDate.value)] else [])
    {
      if startDate.None? || endDate.None? {
        error := MissingRangeError;
        return;
      }
      loading := true;
      error := "";
      reportData := None;
      categoryData := [];
      profitLossData := None;
      var start, end := startDate.value, endDate.value;
      requests := requests + [SummaryRequest(start, end)];
      if summary.Success? {
        reportData := Some(summary.value);
        if filters.kind != AllTypes {
          requests := requests + [CategoryRequest(start, end, filters.kind)];
          if category.CategoryOk? {
            categoryData := CategoryRows(category.entries);
          }
        } else {
          categoryData := [];
        }
        requests := requests + [ProfitLossRequest(start, end)];
        if profitLoss.Success? {
          profitLossData := Some(profitLoss.value);
        } else {
          error := FetchError;
        }
      } else {
        error := FetchError;
      }
      loading := false;
    }

    /** `handlePeriodChange`: records the period; a preset also sets both dates. */
    method HandlePeriodChange(period: string, today: Date)
      modifies this`filters, this`startDate, this`endDate
      ensures filters == old(filters).(period := period)
      ensures PeriodWindow(period, today).Some? ==>
        startDate == Some(PeriodWindow(period, today).value.0) && endDate == Some(PeriodWindow(period, today).value.1)
      ensures PeriodWindow(period, today).None? ==> startDate == old(startDate) && endDate == old(endDate)
    {
      filters := filters.(period := period);
      var window := PeriodWindow(period, today);
      if window.Some? {
        startDate := Some(window.value.0);
        endDate := Some(window.value.1);
      }
    }

    /** The type selector. */
    method SetTypeFilter(kind: string)
      modifies this`filters
      ensures filters == old(filters).(kind := kind)
    {
      filters := filters.(kind := kind);
    }
  }
}
