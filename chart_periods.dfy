/**
 * The period keywords of ChartDataController's POST endpoints ("monthly",
 * "annual", "last3months", "last6months") and how they, the request's
 * dates and its month count become the arguments of the chart services.
 */
module ChartPeriods {
  import opened Wrappers
  import opened Dates
  import opened Windows
  import opened Domain
  import ChartData

  /** The body of a chart POST: optional dates, month count and period keyword. */
  datatype ChartRequest = ChartRequest(start: Option<Date>, end: Option<Date>, months: Option<int>, period: Option<string>)

  /** `last3months` / `last6months`: from day 1 of the month `k` months back up to today. */
  function LastMonths(today: Date, k: int): Window {
    Window(FirstOfMonth(MinusMonths(today, k)), today)
  }

  /** The window a period keyword selects; `None` for any other text. */
  function PeriodWindow(period: string, today: Date): Option<Window> {
    if period == "monthly" then Some(CurrentMonth(today))
    else if period == "annual" then Some(CurrentYear(today))
    else if period == "last3months" then Some(LastMonths(today, 3))
    else if period == "last6months" then Some(LastMonths(today, 6))
    else None
  }

  /** The month count a period keyword selects; "monthly" and any other text select none. */
  function PeriodMonths(period: string): Option<int> {
    if period == "last3months" then Some(3)
    else if period == "last6months" then Some(6)
    else if period == "annual" then Some(12)
    else None
  }

  /** The dates after the period switch of `postExpensesByCategory` (and of the dashboard POST). */
  function RequestDates(req: ChartRequest, today: Date): (Option<Date>, Option<Date>) {
    if req.period.Some? && PeriodWindow(req.period.value, today).Some? then
      var w := PeriodWindow(req.period.value, today).value;
      (Some(w.start), Some(w.end))
    else (req.start, req.end)
  }

  /** The month count after the period switch of `postIncomeExpenseTrend` (and of the dashboard POST). */
  function RequestMonths(req: ChartRequest): Option<int> {
    if req.period.Some? && PeriodMonths(req.period.value).Some? then PeriodMonths(req.period.value)
    else req.months
  }

  /** What the dashboard endpoints hand to the three chart services. */
  datatype DashboardParams = DashboardParams(window: Window, months: int)

  /** `getDashboardChartsData`: the query's dates with the current-month defaults, 12 months by default. */
  function GetDashboardParams(start: Option<Date>, end: Option<Date>, months: Option<int>, today: Date): DashboardParams {
    DashboardParams(ResolveWindow(start, end, today), ChartData.MonthsShown(months))
  }

  /** `postDashboardChartsData`: the period switch, then the same defaults. */
  function PostDashboardParams(req: ChartRequest, today: Date): DashboardParams {
    var (s, e) := RequestDates(req, today);
    DashboardParams(ResolveWindow(s, e, today), ChartData.MonthsShown(RequestMonths(req)))
  }

  /** The three charts of a dashboard. */
  datatype DashboardCharts = DashboardCharts(
    expensesByCategory: ChartData.CategoryExpenseChart,
    incomeExpenseTrend: ChartData.MonthlyTrendChart,
    goalsProgress: ChartData.GoalsProgressChart)

  /** `postDashboardChartsData`: the three services called with the resolved parameters. */
  method PostDashboardChartsData(txs: seq<Transaction>, goals: seq<Goal>, users: map<string, UserId>, username: string,
                                 req: ChartRequest, today: Date, iteration: seq<Category> -> seq<Category>)
    returns (r: Result<DashboardCharts, ServiceError>)
    requires ChartData.IsRearrangement(iteration)
    ensures username !in users ==> r == Err(UserNotFound)
    ensures username in users ==>
      var p := PostDashboardParams(req, today);
      var user := users[username];
      r == Ok(DashboardCharts(
             ChartData.ExpenseChart(ChartData.ExpensesIn(txs, user, p.window), iteration),
             ChartData.Trend(txs, user, p.months, today),
             ChartData.GoalsChart(goals, user, today)))
  {
    var (s, e) := RequestDates(req, today);
    var months := RequestMonths(req);
    var expenses := ChartData.ExpensesByCategory(txs, users, username, s, e, today, iteration);
    if expenses.Err? {
      return Err(expenses.error);
    }
    var trend := ChartData.MonthlyTrend(txs, users, username, months, today);
    var goalsData := ChartData.GoalsProgress(goals, users, username, today);
    return Ok(DashboardCharts(expenses.value, trend.value, goalsData.value));
  }

  // ------------------------------------------------------------ properties

  /**
   * Each keyword selects a window that holds today: the current month, the
   * current year, or from the first day of the month 3 (6) months back up to today.
   */
  lemma PeriodWindowsHoldToday(period: string, today: Date)
    ensures PeriodWindow(period, today).Some? <==> period in {"monthly", "annual", "last3months", "last6months"}
    ensures PeriodWindow(period, today).Some? ==>
      var w := PeriodWindow(period, today).value; InWindow(today, w.start, w.end)
    ensures period == "monthly" ==>
      PeriodWindow(period, today) == Some(Window(FirstOfMonth(today), LastOfMonth(today)))
    ensures period == "annual" ==>
      PeriodWindow(period, today) == Some(Window(YMD(today.year, 1, 1), YMD(today.year, 12, 31)))
    ensures period in {"last3months", "last6months"} ==>
      var k := if period == "last3months" then 3 else 6;
      var w := PeriodWindow(period, today).value;
      && w.end == today && w.start.day == 1
      && MonthCount(w.start.year, w.start.month) == MonthCount(today.year, today.month) - k
  {
    if period in {"last3months", "last6months"} {
      var k := if period == "last3months" then 3 else 6;
      var w := LastMonths(today, k);
      assert MonthCount(w.start.year, w.start.month) < MonthCount(today.year, today.month);
    }
  }

  /** With no period, or text that is not a keyword, the request's dates and months are used as given. */
  lemma UnknownPeriodKeepsRequest(req: ChartRequest, today: Date)
    requires req.period.None? || req.period.value !in {"monthly", "annual", "last3months", "last6months"}
    ensures RequestDates(req, today) == (req.start, req.end)
    ensures RequestMonths(req) == req.months
  {
  }

  /**
   * On the dashboard POST a keyword's window overrides the request's dates;
   * without one the request's dates get the current-month defaults. The
   * month count is the keyword's, else the request's, else 12.
   */
  lemma DashboardPeriodOverrides(req: ChartRequest, today: Date)
    ensures var p := PostDashboardParams(req, today);
      && (req.period.Some? && PeriodWindow(req.period.value, today).Some? ==>
            p.window == PeriodWindow(req.period.value, today).value)
      && (req.period.None? || PeriodWindow(req.period.value, today).None? ==>
            p.window == ResolveWindow(req.start, req.end, today))
      && (req.period.Some? && PeriodMonths(req.period.value).Some? ==> p.months == PeriodMonths(req.period.value).value)
      && (req.period.None? || PeriodMonths(req.period.value).None? ==>
            p.months == if req.months.Some? && req.months.value > 0 then req.months.value else 12)
  {
  }

  /** The dashboard GET and POST agree when the POST names no period. */
  lemma DashboardGetIsPostWithoutPeriod(start: Option<Date>, end: Option<Date>, months: Option<int>, today: Date)
    ensures GetDashboardParams(start, end, months, today)
         == PostDashboardParams(ChartRequest(start, end, months, None), today)
  {
  }

  /**
   * For "last3months" ("last6months") the expense window starts one
   * calendar month earlier than the trend, which shows 3 (6) months ending
   * with today's: the window spans 4 (7) calendar months.
   */
  lemma LastMonthsWindowSpansOneMoreMonth(req: ChartRequest, today: Date)
    requires req.period == Some("last3months") || req.period == Some("last6months")
    ensures var p := PostDashboardParams(req, today);
      && Index(YearMonthOf(p.window.start)) == Index(YearMonthOf(ChartData.TrendStart(today, p.months))) - 1
      && Index(YearMonthOf(p.window.end)) - Index(YearMonthOf(p.window.start)) == p.months
  {
  }
}
