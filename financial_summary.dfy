/**
 * FinancialSummaryService: the income, expense and balance of a window,
 * the per-category breakdowns and the achieved goals, as one summary record.
 */
module FinancialSummary {
  import opened Wrappers
  import opened Dates
  import opened Domain
  import opened TransactionQueries
  import opened Windows
  import GoalService

  datatype CategorySummary = CategorySummary(categoryId: int, categoryName: string, amount: real, categoryType: string)

  datatype GoalSummary = GoalSummary(
    id: Option<int>,
    name: string,
    description: string,
    targetAmount: real,
    currentAmount: real,
    achieved: bool,
    category: Option<string>)

  /**
   * The summary record. The lists are nullable references in the response,
   * which the currency conversion reads as empty; the summaries built here
   * always carry all three. `currency` is only set by that conversion.
   */
  datatype Summary = Summary(
    currentBalance: real,
    totalIncome: real,
    totalExpense: real,
    achievedGoals: Option<seq<GoalSummary>>,
    expensesByCategory: Option<seq<CategorySummary>>,
    incomesByCategory: Option<seq<CategorySummary>>,
    currency: Option<string>)

  // ------------------------------------------------------- category rows

  /** Each grouped row as a category record of type `typeName`, in row order. */
  function CategorySummaries(rows: seq<CategoryRow>, typeName: string): (r: seq<CategorySummary>)
    ensures |r| == |rows|
    ensures forall i | 0 <= i < |rows| ::
      r[i].categoryId == rows[i].categoryId && r[i].categoryName == rows[i].categoryName
      && r[i].amount == rows[i].amount && r[i].categoryType == typeName
  {
    if rows == [] then []
    else [CategorySummary(rows[0].categoryId, rows[0].categoryName, rows[0].amount, typeName)]
         + CategorySummaries(rows[1..], typeName)
  }

  function SumCategoryAmounts(cs: seq<CategorySummary>): real {
    if cs == [] then 0.0 else cs[0].amount + SumCategoryAmounts(cs[1..])
  }

  /** The category records carry the rows' amounts, so they add up to the same total. */
  lemma {:induction false} CategorySummariesKeepTotal(rows: seq<CategoryRow>, typeName: string)
    ensures SumCategoryAmounts(CategorySummaries(rows, typeName)) == SumRows(rows)
  {
    if rows != [] {
      CategorySummariesKeepTotal(rows[1..], typeName);
    }
  }

  /**
   * `getCategorySummaries`: runs the group-by query and appends one record
   * per row; `typeName` is the transaction type's description.
   */
  method GetCategorySummaries(txs: seq<Transaction>, user: UserId, kind: Kind, start: Date, end: Date, typeName: string)
    returns (result: seq<CategorySummary>)
    ensures result == CategorySummaries(GroupByCategory(txs, user, kind, start, end), typeName)
  {
    var rows := GroupByCategory(txs, user, kind, start, end);
    result := [];
    for i := 0 to |rows|
      invariant result == CategorySummaries(rows[..i], typeName)
    {
      var row := rows[i];
      CategorySummariesAppend(rows[..i], row, typeName);
      assert rows[..i + 1] == rows[..i] + [row];
      result := result + [CategorySummary(row.categoryId, row.categoryName, row.amount, typeName)];
    }
    assert rows[..|rows|] == rows;
  }

  lemma {:induction false} CategorySummariesAppend(rows: seq<CategoryRow>, row: CategoryRow, typeName: string)
    ensures CategorySummaries(rows + [row], typeName)
         == CategorySummaries(rows, typeName) + [CategorySummary(row.categoryId, row.categoryName, row.amount, typeName)]
  {
    if rows != [] {
      assert (rows + [row])[1..] == rows[1..] + [row];
      CategorySummariesAppend(rows[1..], row, typeName);
    }
  }

  // -------------------------------------------------------- goal records

  /** The category's name; a category given only by id carries no name. */
  function GoalCategoryName(g: Goal): Option<string> {
    if g.category.Some? && g.category.value.Loaded? then Some(g.category.value.category.name) else None
  }

  /** `mapToFinancialGoalDtos`: one record per goal, in order, fields copied. */
  function MapToGoalSummaries(goals: seq<Goal>): (r: seq<GoalSummary>)
    ensures |r| == |goals|
    ensures forall i | 0 <= i < |goals| ::
      r[i].id == goals[i].id && r[i].name == goals[i].name && r[i].description == goals[i].description
      && r[i].targetAmount == goals[i].targetAmount && r[i].currentAmount == goals[i].currentAmount
      && r[i].achieved == goals[i].achieved
      && (r[i].category.Some? <==> goals[i].category.Some? && goals[i].category.value.Loaded?)
      && (r[i].category.Some? ==> r[i].category.value == goals[i].category.value.category.name)
  {
    if goals == [] then []
    else
      var g := goals[0];
      [GoalSummary(g.id, g.name, g.description, g.targetAmount, g.currentAmount, g.achieved, GoalCategoryName(g))]
      + MapToGoalSummaries(goals[1..])
  }

  // -------------------------------------------------------------- summary

  /**
   * `getFinancialSummary` over the transaction table `txs` and the goal
   * table `goals`; `describe` gives a transaction type's description and
   * `today` stands for `LocalDate.now()`.
   */
  function FinancialSummaryOf(txs: seq<Transaction>, goals: seq<Goal>, users: map<string, UserId>, username: string,
                              start: Option<Date>, end: Option<Date>, today: Date, describe: Kind -> string)
    : Result<Summary, ServiceError>
  {
    if username !in users then Err(UserNotFound)
    else Ok(SummaryFor(txs, goals, users[username], ResolveWindow(start, end, today), describe))
  }

  /** The summary of a known user over a resolved window. */
  function SummaryFor(txs: seq<Transaction>, goals: seq<Goal>, user: UserId, w: Window, describe: Kind -> string): Summary
  {
    var income := SumByUserAndTypeAndDateBetween(txs, user, Income, w.start, w.end).GetOr(0.0);
    var expense := SumByUserAndTypeAndDateBetween(txs, user, Expense, w.start, w.end).GetOr(0.0);
    Summary(income - expense, income, expense,
            Some(MapToGoalSummaries(GoalService.AchievedGoalsOf(goals, user))),
            Some(CategorySummaries(GroupByCategory(txs, user, Expense, w.start, w.end), describe(Expense))),
            Some(CategorySummaries(GroupByCategory(txs, user, Income, w.start, w.end), describe(Income))),
            None)
  }

  method GetFinancialSummary(txs: seq<Transaction>, goals: seq<Goal>, users: map<string, UserId>, username: string,
                             start: Option<Date>, end: Option<Date>, today: Date, describe: Kind -> string)
    returns (r: Result<Summary, ServiceError>)
    ensures r == FinancialSummaryOf(txs, goals, users, username, start, end, today, describe)
  {
    if username !in users {
      return Err(UserNotFound);
    }
    var s := SummarizeWindow(txs, goals, users[username], ResolveWindow(start, end, today), describe);
    return Ok(s);
  }

  /** The body of `getFinancialSummary` once the user and the window are known. */
  method SummarizeWindow(txs: seq<Transaction>, goals: seq<Goal>, user: UserId, w: Window, describe: Kind -> string)
    returns (s: Summary)
    ensures s == SummaryFor(txs, goals, user, w, describe)
  {
    var totalIncome := SumByUserAndTypeAndDateBetween(txs, user, Income, w.start, w.end).GetOr(0.0);
    var totalExpense := SumByUserAndTypeAndDateBetween(txs, user, Expense, w.start, w.end).GetOr(0.0);
    var currentBalance := totalIncome - totalExpense;
    var achievedGoals := MapToGoalSummaries(GoalService.AchievedGoalsOf(goals, user));
    var expensesByCategory := GetCategorySummaries(txs, user, Expense, w.start, w.end, describe(Expense));
    var incomesByCategory := GetCategorySummaries(txs, user, Income, w.start, w.end, describe(Income));
    s := Summary(currentBalance, totalIncome, totalExpense,
                 Some(achievedGoals), Some(expensesByCategory), Some(incomesByCategory), None);
  }

  // ----------------------------------------------------------- properties

  /**
   * The totals are the windowed sums with "no rows" read as zero, the
   * balance is their difference, and a window without transactions gives
   * zero everywhere.
   */
  lemma SummaryTotals(txs: seq<Transaction>, goals: seq<Goal>, users: map<string, UserId>, username: string,
                      start: Option<Date>, end: Option<Date>, today: Date, describe: Kind -> string)
    ensures var r := FinancialSummaryOf(txs, goals, users, username, start, end, today, describe);
      (r.Err? <==> username !in users)
      && (r.Ok? ==>
            var w := ResolveWindow(start, end, today);
            var user := users[username];
            var s := r.value;
            s.currentBalance == s.totalIncome - s.totalExpense
            && ((forall t | t in txs :: !Matches(t, user, Income, w.start, w.end)) <==> SumByUserAndTypeAndDateBetween(txs, user, Income, w.start, w.end).None?)
            && ((forall t | t in txs :: !Matches(t, user, Income, w.start, w.end)) ==> s.totalIncome == 0.0)
            && ((forall t | t in txs :: !Matches(t, user, Expense, w.start, w.end)) ==> s.totalExpense == 0.0)
            && (SumByUserAndTypeAndDateBetween(txs, user, Income, w.start, w.end).Some? ==>
                  s.totalIncome == SumByUserAndTypeAndDateBetween(txs, user, Income, w.start, w.end).value)
            && (SumByUserAndTypeAndDateBetween(txs, user, Expense, w.start, w.end).Some? ==>
                  s.totalExpense == SumByUserAndTypeAndDateBetween(txs, user, Expense, w.start, w.end).value)
            && s.currency.None?)
  {
  }

  /**
   * The expense (income) breakdown has one record per category group of the
   * window's expense (income) rows, typed with that type's description; when
   * every such transaction has a category the records add up to the total.
   */
  lemma SummaryBreakdowns(txs: seq<Transaction>, goals: seq<Goal>, users: map<string, UserId>, username: string,
                          start: Option<Date>, end: Option<Date>, today: Date, describe: Kind -> string)
    requires username in users
    ensures var s := FinancialSummaryOf(txs, goals, users, username, start, end, today, describe).value;
      var w := ResolveWindow(start, end, today);
      var user := users[username];
      s.expensesByCategory.Some? && s.incomesByCategory.Some?
      && |s.expensesByCategory.value| == |GroupByCategory(txs, user, Expense, w.start, w.end)|
      && |s.incomesByCategory.value| == |GroupByCategory(txs, user, Income, w.start, w.end)|
      && (forall c | c in s.expensesByCategory.value :: c.categoryType == describe(Expense))
      && (forall c | c in s.incomesByCategory.value :: c.categoryType == describe(Income))
      && ((forall t | t in txs && Matches(t, user, Expense, w.start, w.end) :: t.category.Some?) ==>
            SumCategoryAmounts(s.expensesByCategory.value) == s.totalExpense)
      && ((forall t | t in txs && Matches(t, user, Income, w.start, w.end) :: t.category.Some?) ==>
            SumCategoryAmounts(s.incomesByCategory.value) == s.totalIncome)
  {
    var w := ResolveWindow(start, end, today);
    var user := users[username];
    var s := FinancialSummaryOf(txs, goals, users, username, start, end, today, describe).value;
    forall kind: Kind
      ensures var rows := GroupByCategory(txs, user, kind, w.start, w.end);
        (forall t | t in txs && Matches(t, user, kind, w.start, w.end) :: t.category.Some?) ==>
          SumCategoryAmounts(CategorySummaries(rows, describe(kind)))
            == SumByUserAndTypeAndDateBetween(txs, user, kind, w.start, w.end).GetOr(0.0)
    {
      GroupRowsAddUp(txs, user, kind, w.start, w.end);
      CategorySummariesKeepTotal(GroupByCategory(txs, user, kind, w.start, w.end), describe(kind));
    }
    var ex := s.expensesByCategory.value;
    forall c | c in ex
      ensures c.categoryType == describe(Expense)
    {
      var i :| 0 <= i < |ex| && ex[i] == c;
    }
    var inc := s.incomesByCategory.value;
    forall c | c in inc
      ensures c.categoryType == describe(Income)
    {
      var i :| 0 <= i < |inc| && inc[i] == c;
    }
  }

  /** The goal list holds a record for each of the user's achieved goals and for nothing else. */
  lemma SummaryGoals(txs: seq<Transaction>, goals: seq<Goal>, users: map<string, UserId>, username: string,
                     start: Option<Date>, end: Option<Date>, today: Date, describe: Kind -> string)
    requires username in users
    ensures var s := FinancialSummaryOf(txs, goals, users, username, start, end, today, describe).value;
      var listed := GoalService.AchievedGoalsOf(goals, users[username]);
      s.achievedGoals.Some? && |s.achievedGoals.value| == |listed|
      && (forall g :: g in listed <==> g in goals && GoalService.AchievedBy(g, users[username]))
      && (forall i | 0 <= i < |listed| ::
            s.achievedGoals.value[i].achieved && s.achievedGoals.value[i].id == listed[i].id
            && s.achievedGoals.value[i].name == listed[i].name)
  {
    var listed := GoalService.AchievedGoalsOf(goals, users[username]);
    forall i | 0 <= i < |listed|
      ensures GoalService.AchievedBy(listed[i], users[username])
    {
      assert listed[i] in listed;
    }
  }
}
