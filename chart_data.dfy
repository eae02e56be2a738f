/**
 * The chart feeds of ChartDataService: expenses by category (a pie), the
 * monthly income/expense trend (bars) and the goals' progress. Each is a
 * method that builds its result step by step, proved equal to a function
 * of the transaction or goal table, and the functions' properties are
 * proved as lemmas.
 */
module ChartData {
  import opened Wrappers
  import opened Dates
  import opened Domain
  import opened Money
  import opened TransactionQueries
  import opened Windows
  import GoalDto
  import Sorting

  /** The palette; entries take their colours in turn, starting over after the twelfth. */
  const ChartColors: seq<string> := [
    "#4e73df", "#1cc88a", "#36b9cc", "#f6c23e", "#e74a3b", "#858796",
    "#5a5c69", "#6610f2", "#6f42c1", "#e83e8c", "#fd7e14", "#20c9a6"]

  /** The colour of the `i`-th entry built. */
  function ColorAt(i: nat): (c: string)
    ensures c in ChartColors
  {
    ChartColors[i % |ChartColors|]
  }

  /** Colours repeat with period 12, and twelve consecutive entries all differ in colour. */
  lemma ColorsCycle(i: nat, j: nat)
    ensures ColorAt(i + 12) == ColorAt(i)
    ensures ColorAt(i) == ColorAt(j) <==> i % 12 == j % 12
  {
    var a, b := i % 12, j % 12;
    assert ColorAt(i) == ChartColors[a] && ColorAt(j) == ChartColors[b];
    if a != b {
      assert ChartColors[a][1..3] != ChartColors[b][1..3] || ChartColors[a] != ChartColors[b];
    }
  }

  // ================================================= expenses by category

  datatype CategoryData = CategoryData(categoryId: int, categoryName: string, amount: real, percentage: real, color: string)

  datatype CategoryExpenseChart = CategoryExpenseChart(categories: seq<CategoryData>, totalAmount: real)

  /** The grouping key: the transaction's category; uncategorised transactions are skipped. */
  function CategoryKey(t: Transaction): Option<Category> {
    t.category
  }

  /** The user's expenses in the window. */
  function ExpensesIn(txs: seq<Transaction>, user: UserId, w: Window): (r: seq<Transaction>)
    ensures forall t :: t in r <==> t in txs && t.owner == user && InWindow(t.date, w.start, w.end) && t.kind == Expense
  {
    Filter(FindByUserAndDateBetween(txs, user, w.start, w.end), (t: Transaction) => t.kind == Expense)
  }

  /** The sort key of the pie: the category's amount. */
  function AmountOf(d: CategoryData): real {
    d.amount
  }

  /** The entry of category `c`, the `i`-th visited. */
  function Entry(c: Category, i: nat, expenses: seq<Transaction>): CategoryData {
    var amount := SumWhere(expenses, CategoryKey, c);
    CategoryData(c.id, c.name, amount, Percentage(amount, SumAmounts(expenses)), ColorAt(i))
  }

  function Entries(order: seq<Category>, expenses: seq<Transaction>): (r: seq<CategoryData>)
    ensures |r| == |order|
    ensures forall i | 0 <= i < |order| :: r[i] == Entry(order[i], i, expenses)
  {
    seq(|order|, i requires 0 <= i < |order| => Entry(order[i], i, expenses))
  }

  /**
   * The pie for the given expenses. The entries are visited in the hash
   * map's iteration order, which `iteration` gives as a rearrangement of the
   * categories in order of first appearance; they are then sorted by amount.
   */
  function ExpenseChart(expenses: seq<Transaction>, iteration: seq<Category> -> seq<Category>): CategoryExpenseChart {
    var order := iteration(KeysOf(expenses, CategoryKey));
    CategoryExpenseChart(Sorting.SortDesc(Entries(order, expenses), AmountOf), SumAmounts(expenses))
  }

  /** A hash map's iteration order: some rearrangement of its keys. */
  ghost predicate IsRearrangement(iteration: seq<Category> -> seq<Category>) {
    forall ks :: multiset(iteration(ks)) == multiset(ks)
  }

  lemma {:induction false} SumWhereSnoc<K>(s: seq<Transaction>, t: Transaction, key: Transaction -> Option<K>, k: K)
    ensures SumWhere(s + [t], key, k) == SumWhere(s, key, k) + (if key(t) == Some(k) then t.amount else 0.0)
  {
    if s == [] {
      assert [] + [t] == [t];
    } else {
      assert (s + [t])[1..] == s[1..] + [t];
      SumWhereSnoc(s[1..], t, key, k);
    }
  }

  lemma KeysOfSnoc<K(!new)>(s: seq<Transaction>, t: Transaction, key: Transaction -> Option<K>)
    ensures KeysOf(s + [t], key)
         == if key(t).Some? && key(t).value !in KeysOf(s, key) then KeysOf(s, key) + [key(t).value] else KeysOf(s, key)
  {
    assert (s + [t])[..|s + [t]| - 1] == s;
  }

  /** `keys` and `totals` group the expenses of `s`: insertion-ordered keys and, per key, its sum. */
  ghost predicate Grouped(s: seq<Transaction>, keys: seq<Category>, totals: map<Category, real>) {
    && keys == KeysOf(s, CategoryKey)
    && (forall c :: c in totals <==> c in keys)
    && (forall c :: c in totals ==> totals[c] == SumWhere(s, CategoryKey, c))
  }

  /** One more expense: its category is added on first sight and its amount added to that category's sum. */
  lemma GroupStep(s: seq<Transaction>, t: Transaction, keys: seq<Category>, totals: map<Category, real>,
                  keys': seq<Category>, totals': map<Category, real>)
    requires Grouped(s, keys, totals)
    requires t.category.None? ==> keys' == keys && totals' == totals
    requires t.category.Some? ==>
      var c := t.category.value;
      && keys' == (if c in keys then keys else keys + [c])
      && totals' == totals[c := (if c in totals then totals[c] else 0.0) + t.amount]
    ensures Grouped(s + [t], keys', totals')
  {
    KeysOfSnoc(s, t, CategoryKey);
    forall c: Category
      ensures SumWhere(s + [t], CategoryKey, c)
           == SumWhere(s, CategoryKey, c) + (if CategoryKey(t) == Some(c) then t.amount else 0.0)
    {
      SumWhereSnoc(s, t, CategoryKey, c);
    }
    forall c: Category | c !in totals
      ensures SumWhere(s, CategoryKey, c) == 0.0
    {
      SumWhereAbsent(s, c);
    }
  }

  /** A category that no expense carries sums to zero. */
  lemma {:induction false} SumWhereAbsent(s: seq<Transaction>, c: Category)
    requires c !in KeysOf(s, CategoryKey)
    ensures SumWhere(s, CategoryKey, c) == 0.0
  {
    if s != [] {
      assert forall i | 0 <= i < |s| - 1 :: s[1..][i] == s[i + 1];
      SumWhereAbsent(s[1..], c);
    }
  }

  /** One turn of the loop filling the hash map: `merge` of the expense's amount under its category. */
  method AddExpense(keys: seq<Category>, totals: map<Category, real>, t: Transaction)
    returns (keys': seq<Category>, totals': map<Category, real>)
    ensures t.category.None? ==> keys' == keys && totals' == totals
    ensures t.category.Some? ==>
      var c := t.category.value;
      && keys' == (if c in keys then keys else keys + [c])
      && totals' == totals[c := (if c in totals then totals[c] else 0.0) + t.amount]
  {
    keys', totals' := keys, totals;
    if t.category.Some? {
      var c := t.category.value;
      var amount := if c in totals then totals[c] else 0.0;
      totals' := totals[c := amount + t.amount];
      if c !in keys {
        keys' := keys + [c];
      }
    }
  }

  /**
   * The loop filling the hash map: the keys in order of insertion and, for
   * each, the sum of its expenses.
   */
  method GroupExpenses(expenses: seq<Transaction>) returns (keys: seq<Category>, totals: map<Category, real>)
    ensures keys == KeysOf(expenses, CategoryKey)
    ensures forall c :: c in totals <==> c in keys
    ensures forall c :: c in totals ==> totals[c] == SumWhere(expenses, CategoryKey, c)
  {
    keys := [];
    totals := map[];
    for i := 0 to |expenses|
      invariant Grouped(expenses[..i], keys, totals)
    {
      var t := expenses[i];
      var keys', totals' := AddExpense(keys, totals, t);
      GroupStep(expenses[..i], t, keys, totals, keys', totals');
      assert expenses[..i + 1] == expenses[..i] + [t];
      keys, totals := keys', totals';
    }
    assert expenses[..|expenses|] == expenses;
  }

  /** The loop over the map's entries, in iteration order, building one entry each. */
  method BuildEntries(order: seq<Category>, totals: map<Category, real>, expenses: seq<Transaction>)
    returns (emitted: seq<CategoryData>)
    requires forall c | c in order :: c in totals && totals[c] == SumWhere(expenses, CategoryKey, c)
    ensures emitted == Entries(order, expenses)
  {
    var total := SumAmounts(expenses);
    emitted := [];
    for j := 0 to |order|
      invariant |emitted| == j
      invariant forall k | 0 <= k < j :: emitted[k] == Entry(order[k], k, expenses)
    {
      var c := order[j];
      var amount := totals[c];
      var percentage := Percentage(amount, total);
      var color := ColorAt(j);
      emitted := emitted + [CategoryData(c.id, c.name, amount, percentage, color)];
    }
  }

  /** `getExpensesByCategory`. */
  method ExpensesByCategory(txs: seq<Transaction>, users: map<string, UserId>, username: string,
                            start: Option<Date>, end: Option<Date>, today: Date,
                            iteration: seq<Category> -> seq<Category>)
    returns (r: Result<CategoryExpenseChart, ServiceError>)
    requires IsRearrangement(iteration)
    ensures username !in users ==> r == Err(UserNotFound)
    ensures username in users ==>
      r == Ok(ExpenseChart(ExpensesIn(txs, users[username], ResolveWindow(start, end, today)), iteration))
  {
    if username !in users {
      return Err(UserNotFound);
    }
    var expenses := ExpensesIn(txs, users[username], ResolveWindow(start, end, today));
    var keys, totals := GroupExpenses(expenses);
    var total := SumAmounts(expenses);
    var order := iteration(keys);
    forall c | c in order
      ensures c in totals
    {
      assert c in multiset(order);
    }
    var emitted := BuildEntries(order, totals, expenses);
    var sorted := Sorting.SortDesc(emitted, AmountOf);
    return Ok(CategoryExpenseChart(sorted, total));
  }

  // --------------------------------------------- properties of the pie

  /** The pie lists one entry per distinct category, by non-increasing amount, beside the total of all expenses. */
  lemma ExpenseChartShape(expenses: seq<Transaction>, iteration: seq<Category> -> seq<Category>)
    requires IsRearrangement(iteration)
    ensures var chart := ExpenseChart(expenses, iteration);
      && chart.totalAmount == SumAmounts(expenses)
      && |chart.categories| == |KeysOf(expenses, CategoryKey)|
      && (forall i, j :: 0 <= i < j < |chart.categories| ==> chart.categories[i].amount >= chart.categories[j].amount)
  {
    var keys := KeysOf(expenses, CategoryKey);
    var order := iteration(keys);
    var cs := Sorting.SortDesc(Entries(order, expenses), AmountOf);
    assert ExpenseChart(expenses, iteration).categories == cs;
    assert |multiset(order)| == |order| && |multiset(keys)| == |keys|;
    forall i, j | 0 <= i < j < |cs|
      ensures cs[i].amount >= cs[j].amount
    {
      assert AmountOf(cs[i]) >= AmountOf(cs[j]);
    }
  }

  /** Every category of an expense has an entry summing exactly that category's expenses. */
  lemma ExpenseChartCoversCategories(expenses: seq<Transaction>, iteration: seq<Category> -> seq<Category>)
    requires IsRearrangement(iteration)
    ensures var cs := ExpenseChart(expenses, iteration).categories;
      forall t | t in expenses && t.category.Some? ::
        exists i :: 0 <= i < |cs| && cs[i].categoryId == t.category.value.id
                 && cs[i].categoryName == t.category.value.name
                 && cs[i].amount == SumWhere(expenses, CategoryKey, t.category.value)
  {
    var keys := KeysOf(expenses, CategoryKey);
    var order := iteration(keys);
    var es := Entries(order, expenses);
    var cs := Sorting.SortDesc(es, AmountOf);
    assert ExpenseChart(expenses, iteration).categories == cs;
    forall t | t in expenses && t.category.Some?
      ensures exists i :: 0 <= i < |cs| && cs[i].categoryId == t.category.value.id
                       && cs[i].categoryName == t.category.value.name
                       && cs[i].amount == SumWhere(expenses, CategoryKey, t.category.value)
    {
      var c := t.category.value;
      var m :| 0 <= m < |expenses| && expenses[m] == t;
      assert CategoryKey(expenses[m]) == Some(c);
      assert c in multiset(order);
      var k :| 0 <= k < |order| && order[k] == c;
      assert es[k] in multiset(cs);
      var i :| 0 <= i < |cs| && cs[i] == es[k];
    }
  }

  /** Every entry is the sum and share of a category some expense has. */
  lemma ExpenseChartEntriesSound(expenses: seq<Transaction>, iteration: seq<Category> -> seq<Category>)
    requires IsRearrangement(iteration)
    ensures var cs := ExpenseChart(expenses, iteration).categories;
      forall i | 0 <= i < |cs| ::
        exists t :: t in expenses && t.category.Some? && cs[i].categoryId == t.category.value.id
                 && cs[i].categoryName == t.category.value.name
                 && cs[i].amount == SumWhere(expenses, CategoryKey, t.category.value)
                 && cs[i].percentage == Percentage(cs[i].amount, SumAmounts(expenses))
  {
    var keys := KeysOf(expenses, CategoryKey);
    var order := iteration(keys);
    var es := Entries(order, expenses);
    var cs := Sorting.SortDesc(es, AmountOf);
    assert ExpenseChart(expenses, iteration).categories == cs;
    forall i | 0 <= i < |cs|
      ensures exists t :: t in expenses && t.category.Some? && cs[i].categoryId == t.category.value.id
                       && cs[i].categoryName == t.category.value.name
                       && cs[i].amount == SumWhere(expenses, CategoryKey, t.category.value)
                       && cs[i].percentage == Percentage(cs[i].amount, SumAmounts(expenses))
    {
      assert cs[i] in multiset(es);
      var k :| 0 <= k < |es| && es[k] == cs[i];
      var c := order[k];
      assert c in multiset(keys);
      var m :| 0 <= m < |expenses| && CategoryKey(expenses[m]) == Some(c);
      var t := expenses[m];
      assert t in expenses;
    }
  }

  /** Σ of the entries' amounts. */
  function SumEntries(ds: seq<CategoryData>): real {
    if ds == [] then 0.0 else ds[0].amount + SumEntries(ds[1..])
  }

  lemma {:induction false} SumEntriesAppend(a: seq<CategoryData>, b: seq<CategoryData>)
    ensures SumEntries(a + b) == SumEntries(a) + SumEntries(b)
  {
    if a == [] {
      assert a + b == b;
    } else {
      assert (a + b)[1..] == a[1..] + b;
      SumEntriesAppend(a[1..], b);
    }
  }

  lemma SumEntriesRemove(b: seq<CategoryData>, j: int)
    requires 0 <= j < |b|
    ensures SumEntries(b) == b[j].amount + SumEntries(b[..j] + b[j + 1..])
  {
    assert b == b[..j] + ([b[j]] + b[j + 1..]);
    SumEntriesAppend(b[..j], [b[j]] + b[j + 1..]);
    assert ([b[j]] + b[j + 1..])[1..] == b[j + 1..];
    SumEntriesAppend(b[..j], b[j + 1..]);
  }

  lemma MultisetRemove<T>(b: seq<T>, j: int)
    requires 0 <= j < |b|
    ensures multiset(b[..j] + b[j + 1..]) == multiset(b) - multiset{b[j]}
  {
    assert b == b[..j] + [b[j]] + b[j + 1..];
  }

  /** Taking the same element out of two rearrangements of each other leaves rearrangements. */
  lemma RemoveMatching<T>(a: seq<T>, b: seq<T>, j: int)
    requires a != [] && 0 <= j < |b| && b[j] == a[0]
    requires multiset(a) == multiset(b)
    ensures multiset(a[1..]) == multiset(b[..j] + b[j + 1..])
  {
    MultisetRemove(b, j);
    assert a == [a[0]] + a[1..];
  }

  /** Reordering entries does not change their sum. */
  lemma {:induction false} SumEntriesRearranged(a: seq<CategoryData>, b: seq<CategoryData>)
    requires multiset(a) == multiset(b)
    ensures SumEntries(a) == SumEntries(b)
  {
    if a == [] {
      assert |b| == |multiset(b)| == 0;
    } else {
      assert a[0] in multiset(b);
      var j :| 0 <= j < |b| && b[j] == a[0];
      RemoveMatching(a, b, j);
      SumEntriesRearranged(a[1..], b[..j] + b[j + 1..]);
      SumEntriesRemove(b, j);
    }
  }

  lemma {:induction false} SumEntriesOverKeys(ds: seq<CategoryData>, order: seq<Category>, expenses: seq<Transaction>)
    requires |ds| == |order|
    requires forall i | 0 <= i < |ds| :: ds[i].amount == SumWhere(expenses, CategoryKey, order[i])
    ensures SumEntries(ds) == SumOverKeys(order, expenses, CategoryKey)
  {
    if ds != [] {
      SumEntriesOverKeys(ds[1..], order[1..], expenses);
    }
  }

  lemma {:induction false} DistinctAtMostOnce<T>(s: seq<T>)
    requires Distinct(s)
    ensures forall x :: multiset(s)[x] <= 1
  {
    if s != [] {
      assert s == [s[0]] + s[1..];
      DistinctAtMostOnce(s[1..]);
      forall j | 0 <= j < |s[1..]|
        ensures s[1..][j] != s[0]
      {
        assert s[1..][j] == s[j + 1];
      }
    }
  }

  lemma EqualPairCountsTwice<T>(b: seq<T>, i: int, j: int)
    requires 0 <= i < j < |b|
    ensures b[i] == b[j] ==> multiset(b)[b[i]] >= 2
  {
    assert b == b[..i] + [b[i]] + b[i + 1..j] + [b[j]] + b[j + 1..];
  }

  /** A rearrangement of distinct keys is distinct. */
  lemma DistinctRearranged<T>(a: seq<T>, b: seq<T>)
    requires Distinct(a) && multiset(a) == multiset(b)
    ensures Distinct(b)
  {
    DistinctAtMostOnce(a);
    forall i, j | 0 <= i < j < |b|
      ensures b[i] != b[j]
    {
      EqualPairCountsTwice(b, i, j);
    }
  }

  lemma {:induction false} SumWhereBounds<K>(s: seq<Transaction>, key: Transaction -> Option<K>, k: K)
    requires forall t | t in s :: t.amount >= 0.0
    ensures 0.0 <= SumWhere(s, key, k) <= SumAmounts(s)
  {
    if s != [] {
      SumWhereBounds(s[1..], key, k);
    }
  }

  /** Before sorting: each entry's share lies between 0 and 100 percent. */
  lemma EntriesShareBounds(order: seq<Category>, expenses: seq<Transaction>)
    requires forall t | t in expenses :: t.amount >= 0.0
    ensures forall k | 0 <= k < |order| :: 0.0 <= Entries(order, expenses)[k].percentage <= 100.0
  {
    var es := Entries(order, expenses);
    var total := SumAmounts(expenses);
    forall k | 0 <= k < |order|
      ensures 0.0 <= es[k].percentage <= 100.0
    {
      SumWhereBounds(expenses, CategoryKey, order[k]);
      if total > 0.0 {
        PercentageBounds(es[k].amount, total);
      }
    }
  }

  /** Before sorting: the entries add up to at most the total, exactly it when every expense has a category. */
  lemma EntriesSumToTotal(expenses: seq<Transaction>, order: seq<Category>)
    requires multiset(order) == multiset(KeysOf(expenses, CategoryKey))
    requires forall t | t in expenses :: t.amount >= 0.0
    ensures SumEntries(Entries(order, expenses)) <= SumAmounts(expenses)
    ensures (forall t | t in expenses :: t.category.Some?) ==> SumEntries(Entries(order, expenses)) == SumAmounts(expenses)
  {
    var keys := KeysOf(expenses, CategoryKey);
    SumEntriesOverKeys(Entries(order, expenses), order, expenses);
    DistinctRearranged(keys, order);
    forall t | t in expenses && CategoryKey(t).Some?
      ensures CategoryKey(t).value in order
    {
      var m :| 0 <= m < |expenses| && expenses[m] == t;
      assert CategoryKey(expenses[m]) == Some(t.category.value);
      assert t.category.value in multiset(keys);
    }
    Partition(order, expenses, CategoryKey);
    SumKeyedAtMostTotal(expenses, CategoryKey);
    SumSplits(expenses, CategoryKey);
    if forall t | t in expenses :: t.category.Some? {
      UnkeyedZero(expenses, CategoryKey);
    }
  }

  /**
   * With non-negative amounts (transactions are validated positive), every
   * share lies between 0 and 100 percent and the entries add up to at most
   * the total, exactly the total when every expense has a category.
   */
  lemma ExpenseShares(expenses: seq<Transaction>, iteration: seq<Category> -> seq<Category>)
    requires IsRearrangement(iteration)
    requires forall t | t in expenses :: t.amount >= 0.0
    ensures var chart := ExpenseChart(expenses, iteration);
      && (forall i | 0 <= i < |chart.categories| :: 0.0 <= chart.categories[i].percentage <= 100.0)
      && SumEntries(chart.categories) <= chart.totalAmount
      && ((forall t | t in expenses :: t.category.Some?) ==> SumEntries(chart.categories) == chart.totalAmount)
  {
    var order := iteration(KeysOf(expenses, CategoryKey));
    var es := Entries(order, expenses);
    var cs := Sorting.SortDesc(es, AmountOf);
    assert ExpenseChart(expenses, iteration).categories == cs;
    EntriesShareBounds(order, expenses);
    forall i | 0 <= i < |cs|
      ensures 0.0 <= cs[i].percentage <= 100.0
    {
      assert cs[i] in multiset(es);
      var k :| 0 <= k < |es| && es[k] == cs[i];
    }
    SumEntriesRearranged(cs, es);
    EntriesSumToTotal(expenses, order);
  }

  // ======================================================= monthly trend

  /** One month of the trend; the localised label ("jan/2024") is not modelled. */
  datatype MonthData = MonthData(year: int, monthNumber: int, incomeAmount: real, expenseAmount: real, balance: real)

  datatype MonthlyTrendChart = MonthlyTrendChart(months: seq<MonthData>, maxAmount: real)

  /** The number of months shown: 12 when the parameter is absent or not positive. */
  function MonthsShown(months: Option<int>): (n: int)
    ensures n >= 1
    ensures months.Some? && months.value > 0 ==> n == months.value
    ensures months.None? || months.value <= 0 ==> n == 12
  {
    if months.None? || months.value <= 0 then 12 else months.value
  }

  /** The first day of the period: day 1 of the month `n - 1` months before today's. */
  function TrendStart(today: Date, n: int): Date {
    FirstOfMonth(MinusMonths(today, n - 1))
  }

  /**
   * The sum of the amounts of kind `kind` dated in month `ym`: the month's
   * filter, the kind's filter and the reduction, in one pass.
   */
  function MonthTotal(rows: seq<Transaction>, ym: YearMonth, kind: Kind): real
    requires ValidYearMonth(ym)
  {
    if rows == [] then 0.0
    else
      (if InWindow(rows[0].date, AtDay1(ym), AtEndOfMonth(ym)) && rows[0].kind == kind then rows[0].amount else 0.0)
      + MonthTotal(rows[1..], ym, kind)
  }

  /** The month `ym` of the trend, over the period's transactions `rows`. */
  function MonthBucket(rows: seq<Transaction>, ym: YearMonth): MonthData
    requires ValidYearMonth(ym)
  {
    var income := MonthTotal(rows, ym, Income);
    var expense := MonthTotal(rows, ym, Expense);
    MonthData(ym.year, ym.month, income, expense, income - expense)
  }

  /** The running maximum of the months' incomes and expenses, starting from zero. */
  function Peak(ms: seq<MonthData>): real {
    if ms == [] then 0.0
    else
      var before := Peak(ms[..|ms| - 1]);
      var m := ms[|ms| - 1];
      var withIncome := if m.incomeAmount > before then m.incomeAmount else before;
      if m.expenseAmount > withIncome then m.expenseAmount else withIncome
  }

  lemma PeakSnoc(ms: seq<MonthData>, m: MonthData)
    ensures var withIncome := if m.incomeAmount > Peak(ms) then m.incomeAmount else Peak(ms);
      Peak(ms + [m]) == if m.expenseAmount > withIncome then m.expenseAmount else withIncome
  {
    assert (ms + [m])[..|ms + [m]| - 1] == ms;
  }

  /** The trend of the `n` months ending with today's, and the chart's scale with a 10% margin. */
  function Trend(txs: seq<Transaction>, user: UserId, n: nat, today: Date): MonthlyTrendChart {
    var start := TrendStart(today, n);
    var rows := FindByUserAndDateBetween(txs, user, start, today);
    var first := YearMonthOf(start);
    var months := seq(n, i requires 0 <= i < n => MonthBucket(rows, PlusMonthsYM(first, i)));
    MonthlyTrendChart(months, Peak(months) * 1.1)
  }

  /** The loop listing the year-months from `first` to `last`, both included. */
  method MonthsBetween(first: YearMonth, last: YearMonth) returns (yms: seq<YearMonth>)
    requires ValidYearMonth(first) && ValidYearMonth(last)
    ensures |yms| == if Index(last) < Index(first) then 0 else Index(last) - Index(first) + 1
    ensures forall i | 0 <= i < |yms| :: yms[i] == PlusMonthsYM(first, i)
  {
    yms := [];
    var current := first;
    YMIsAfterIndex(current, last);
    while !YMIsAfter(current, last)
      invariant ValidYearMonth(current)
      invariant Index(current) == Index(first) + |yms|
      invariant |yms| > 0 ==> Index(current) <= Index(last) + 1
      invariant forall i | 0 <= i < |yms| :: yms[i] == PlusMonthsYM(first, i)
      invariant YMIsAfter(current, last) <==> Index(current) > Index(last)
      decreases Index(last) + 1 - Index(current)
    {
      YMIsAfterIndex(current, PlusMonthsYM(first, |yms|));
      yms := yms + [current];
      current := PlusMonthsYM(current, 1);
      YMIsAfterIndex(current, last);
    }
  }

  /** The loop over the months: one bucket each, and the running maximum. */
  method Buckets(rows: seq<Transaction>, yms: seq<YearMonth>) returns (ms: seq<MonthData>, peak: real)
    requires forall i | 0 <= i < |yms| :: ValidYearMonth(yms[i])
    ensures |ms| == |yms|
    ensures forall i | 0 <= i < |yms| :: ms[i] == MonthBucket(rows, yms[i])
    ensures peak == Peak(ms)
  {
    ms := [];
    peak := 0.0;
    for k := 0 to |yms|
      invariant |ms| == k
      invariant forall i | 0 <= i < k :: ms[i] == MonthBucket(rows, yms[i])
      invariant peak == Peak(ms)
    {
      // the month's streams over `rows` are the function MonthBucket
      var m := MonthBucket(rows, yms[k]);
      if m.incomeAmount > peak {
        peak := m.incomeAmount;
      }
      if m.expenseAmount > peak {
        peak := m.expenseAmount;
      }
      PeakSnoc(ms, m);
      ms := ms + [m];
    }
  }

  /** `getMonthlyTrend`. */
  method MonthlyTrend(txs: seq<Transaction>, users: map<string, UserId>, username: string, months: Option<int>, today: Date)
    returns (r: Result<MonthlyTrendChart, ServiceError>)
    ensures username !in users ==> r == Err(UserNotFound)
    ensures username in users ==> r == Ok(Trend(txs, users[username], MonthsShown(months), today))
  {
    if username !in users {
      return Err(UserNotFound);
    }
    var n := MonthsShown(months);
    var startDate := TrendStart(today, n);
    var transactions := FindByUserAndDateBetween(txs, users[username], startDate, today);
    var yms := MonthsBetween(YearMonthOf(startDate), YearMonthOf(today));
    var ms, peak := Buckets(transactions, yms);
    assert ms == Trend(txs, users[username], n, today).months;
    return Ok(MonthlyTrendChart(ms, peak * 1.1));
  }

  // ----------------------------------------- properties of the trend

  /**
   * The trend lists exactly `n` consecutive months, oldest first, the last
   * being today's month; each balance is income minus expense.
   */
  lemma TrendMonths(txs: seq<Transaction>, user: UserId, n: nat, today: Date)
    requires n >= 1
    ensures var ms := Trend(txs, user, n, today).months;
      && |ms| == n
      && (forall i | 0 <= i < n ::
            ValidYearMonth(YearMonth(ms[i].year, ms[i].monthNumber))
            && Index(YearMonth(ms[i].year, ms[i].monthNumber)) == Index(YearMonthOf(today)) - (n - 1) + i
            && ms[i].balance == ms[i].incomeAmount - ms[i].expenseAmount)
      && ms[n - 1].year == today.year && ms[n - 1].monthNumber == today.month
  {
    var first := YearMonthOf(TrendStart(today, n));
    var ms := Trend(txs, user, n, today).months;
    assert Index(first) == Index(YearMonthOf(today)) - (n - 1);
    forall i | 0 <= i < n
      ensures YearMonth(ms[i].year, ms[i].monthNumber) == PlusMonthsYM(first, i)
    {
    }
    YMIsAfterIndex(PlusMonthsYM(first, n - 1), YearMonthOf(today));
  }

  /** Transaction `t` counts toward month `ym`'s `kind` total in the trend ending `today`. */
  predicate CountedIn(t: Transaction, user: UserId, kind: Kind, ym: YearMonth, today: Date) {
    t.owner == user && t.kind == kind && YearMonthOf(t.date) == ym && !IsAfter(t.date, today)
  }

  lemma {:induction false} MonthTotalOfFilter(s: seq<Transaction>, p: Transaction -> bool, ym: YearMonth, kind: Kind,
                                              q: Transaction -> bool)
    requires ValidYearMonth(ym)
    requires forall t | t in s :: q(t) == (p(t) && InWindow(t.date, AtDay1(ym), AtEndOfMonth(ym)) && t.kind == kind)
    ensures MonthTotal(Filter(s, p), ym, kind) == SumAmounts(Filter(s, q))
  {
    if s != [] {
      assert s[0] in s;
      forall t | t in s[1..]
        ensures q(t) == (p(t) && InWindow(t.date, AtDay1(ym), AtEndOfMonth(ym)) && t.kind == kind)
      {
        assert t in s;
      }
      MonthTotalOfFilter(s[1..], p, ym, kind, q);
      var fp := Filter(s, p);
      if p(s[0]) {
        assert fp[0] == s[0] && fp[1..] == Filter(s[1..], p);
      } else {
        assert fp == Filter(s[1..], p);
      }
      var fq := Filter(s, q);
      if q(s[0]) {
        assert fq[0] == s[0] && fq[1..] == Filter(s[1..], q);
      } else {
        assert fq == Filter(s[1..], q);
      }
    }
  }

  lemma NotBeforeFirstDay(d: Date, start: Date)
    requires start.day == 1
    requires Index(YearMonthOf(d)) >= Index(YearMonthOf(start))
    ensures !IsBefore(d, start)
  {
  }

  /**
   * Each month's income (expense) is the sum of exactly the user's income
   * (expense) transactions dated in that month and not after today.
   */
  lemma TrendMonthSums(txs: seq<Transaction>, user: UserId, n: nat, today: Date, i: int)
    requires 0 <= i < n
    ensures var m := Trend(txs, user, n, today).months[i];
      var ym := YearMonth(m.year, m.monthNumber);
      && m.incomeAmount == SumAmounts(Filter(txs, (t: Transaction) => CountedIn(t, user, Income, ym, today)))
      && m.expenseAmount == SumAmounts(Filter(txs, (t: Transaction) => CountedIn(t, user, Expense, ym, today)))
  {
    var start := TrendStart(today, n);
    var first := YearMonthOf(start);
    var ym := PlusMonthsYM(first, i);
    var inPeriod := (t: Transaction) => t.owner == user && InWindow(t.date, start, today);
    assert Trend(txs, user, n, today).months[i] == MonthBucket(Filter(txs, inPeriod), ym);
    forall t: Transaction
      ensures InWindow(t.date, AtDay1(ym), AtEndOfMonth(ym)) <==> YearMonthOf(t.date) == ym
      ensures YearMonthOf(t.date) == ym ==> !IsBefore(t.date, start)
    {
      InMonthWindow(t.date, ym);
      if YearMonthOf(t.date) == ym {
        NotBeforeFirstDay(t.date, start);
      }
    }
    MonthTotalOfFilter(txs, inPeriod, ym, Income, (t: Transaction) => CountedIn(t, user, Income, ym, today));
    MonthTotalOfFilter(txs, inPeriod, ym, Expense, (t: Transaction) => CountedIn(t, user, Expense, ym, today));
  }

  /**
   * The running maximum is at least zero and every amount, and is either
   * zero or one of the amounts.
   */
  lemma {:induction false} PeakBounds(ms: seq<MonthData>)
    ensures Peak(ms) >= 0.0
    ensures forall i | 0 <= i < |ms| :: Peak(ms) >= ms[i].incomeAmount && Peak(ms) >= ms[i].expenseAmount
    ensures Peak(ms) == 0.0 || exists i :: 0 <= i < |ms| && (Peak(ms) == ms[i].incomeAmount || Peak(ms) == ms[i].expenseAmount)
  {
    if ms != [] {
      var init := ms[..|ms| - 1];
      PeakBounds(init);
      assert forall i | 0 <= i < |init| :: init[i] == ms[i];
      if Peak(ms) != 0.0 && Peak(ms) != Peak(init) {
        assert Peak(ms) == ms[|ms| - 1].incomeAmount || Peak(ms) == ms[|ms| - 1].expenseAmount;
      } else if Peak(ms) != 0.0 {
        var j :| 0 <= j < |init| && (Peak(init) == init[j].incomeAmount || Peak(init) == init[j].expenseAmount);
        assert ms[j] == init[j];
      }
    }
  }

  /**
   * The chart's scale leaves a 10% margin above the largest bar: it is
   * 1.1 times the largest income or expense shown, or zero when there is none.
   */
  lemma TrendScale(txs: seq<Transaction>, user: UserId, n: nat, today: Date)
    ensures var chart := Trend(txs, user, n, today);
      && chart.maxAmount >= 0.0
      && (forall i | 0 <= i < |chart.months| ::
            chart.maxAmount >= chart.months[i].incomeAmount * 1.1 && chart.maxAmount >= chart.months[i].expenseAmount * 1.1)
      && (chart.maxAmount == 0.0
          || (exists i :: 0 <= i < |chart.months|
                && (chart.maxAmount == chart.months[i].incomeAmount * 1.1 || chart.maxAmount == chart.months[i].expenseAmount * 1.1)))
  {
    PeakBounds(Trend(txs, user, n, today).months);
  }

  // ====================================================== goals progress

  datatype GoalData = GoalData(
    goalId: Option<int>,
    goalName: string,
    description: string,
    targetAmount: real,
    currentAmount: real,
    progressPercentage: real,
    achieved: bool,
    startDate: Date,
    endDate: Option<Date>,
    categoryId: Option<int>,
    categoryName: Option<string>,
    daysRemaining: Option<int>,
    color: string)

  datatype GoalsProgressChart = GoalsProgressChart(goals: seq<GoalData>)

  /** The sort key of the goals chart: the progress percentage. */
  function ProgressOf(d: GoalData): real {
    d.progressPercentage
  }

  /** `findByUser` of the goal repository: the user's goals in table order. */
  function GoalsOfUser(goals: seq<Goal>, user: UserId): (r: seq<Goal>)
    ensures forall g :: g in r <==> g in goals && g.owner == Some(user)
  {
    if goals == [] then []
    else (if goals[0].owner == Some(user) then [goals[0]] else []) + GoalsOfUser(goals[1..], user)
  }

  /** Whole days from today to the end date, for a goal still open whose end date is ahead. */
  function DaysRemaining(g: Goal, today: Date): Option<int> {
    if g.endDate.Some? && !g.achieved && IsAfter(g.endDate.value, today) then
      Some(DaysBetween(today, g.endDate.value))
    else None
  }

  /** The entry of goal `g`, the `i`-th visited. */
  function GoalEntry(g: Goal, i: nat, today: Date): GoalData {
    GoalData(g.id, g.name, g.description, g.targetAmount, g.currentAmount, GoalDto.Progress(g), g.achieved,
             g.startDate, g.endDate,
             if g.category.Some? then Some(g.category.value.Id()) else None,
             if g.category.Some? && g.category.value.Loaded? then Some(g.category.value.category.name) else None,
             DaysRemaining(g, today), ColorAt(i))
  }

  function GoalEntries(mine: seq<Goal>, today: Date): (r: seq<GoalData>)
    ensures |r| == |mine|
    ensures forall i | 0 <= i < |mine| :: r[i] == GoalEntry(mine[i], i, today)
  {
    seq(|mine|, i requires 0 <= i < |mine| => GoalEntry(mine[i], i, today))
  }

  /** The user's goals as chart entries, by non-increasing progress. */
  function GoalsChart(goals: seq<Goal>, user: UserId, today: Date): GoalsProgressChart {
    GoalsProgressChart(Sorting.SortDesc(GoalEntries(GoalsOfUser(goals, user), today), ProgressOf))
  }

  /** The loop of `getGoalsProgress`: one record per goal, in order. */
  method BuildGoalEntries(mine: seq<Goal>, today: Date) returns (entries: seq<GoalData>)
    ensures entries == GoalEntries(mine, today)
  {
    entries := [];
    for k := 0 to |mine|
      invariant |entries| == k
      invariant forall i | 0 <= i < k :: entries[i] == GoalEntry(mine[i], i, today)
    {
      var data := BuildGoalData(mine[k], k, today);
      entries := entries + [data];
    }
  }

  /** The loop body of `getGoalsProgress`: one goal's record, the `k`-th colour. */
  method BuildGoalData(goal: Goal, k: nat, today: Date) returns (data: GoalData)
    ensures data == GoalEntry(goal, k, today)
  {
    var progress := GoalDto.Progress(goal);
    var daysRemaining: Option<int> := None;
    if goal.endDate.Some? && !goal.achieved && IsAfter(goal.endDate.value, today) {
      daysRemaining := Some(DaysBetween(today, goal.endDate.value));
    }
    var color := ColorAt(k);
    data := GoalData(goal.id, goal.name, goal.description, goal.targetAmount, goal.currentAmount, progress,
                     goal.achieved, goal.startDate, goal.endDate, None, None, daysRemaining, color);
    if goal.category.Some? {
      var name := if goal.category.value.Loaded? then Some(goal.category.value.category.name) else None;
      data := data.(categoryId := Some(goal.category.value.Id()), categoryName := name);
    }
  }

  /** `getGoalsProgress`, over the goal table `goals`. */
  method GoalsProgress(goals: seq<Goal>, users: map<string, UserId>, username: string, today: Date)
    returns (r: Result<GoalsProgressChart, ServiceError>)
    ensures username !in users ==> r == Err(UserNotFound)
    ensures username in users ==> r == Ok(GoalsChart(goals, users[username], today))
  {
    if username !in users {
      return Err(UserNotFound);
    }
    var mine := GoalsOfUser(goals, users[username]);
    var entries := BuildGoalEntries(mine, today);
    var sorted := Sorting.SortDesc(entries, ProgressOf);
    return Ok(GoalsProgressChart(sorted));
  }

  // ----------------------------------------- properties of the goals chart

  /**
   * Days remaining are shown exactly for open goals whose end date is after
   * today, and then they are at least one: the end date's day count minus today's.
   */
  lemma DaysRemainingPositive(g: Goal, today: Date)
    ensures DaysRemaining(g, today).Some? <==> g.endDate.Some? && !g.achieved && IsAfter(g.endDate.value, today)
    ensures DaysRemaining(g, today).Some? ==>
      DaysRemaining(g, today).value >= 1 && EpochDay(today) + DaysRemaining(g, today).value == EpochDay(g.endDate.value)
  {
    if g.endDate.Some? {
      BeforeIsEarlierEpochDay(today, g.endDate.value);
    }
  }

  /** The chart holds one entry per goal of the user, by non-increasing progress. */
  lemma GoalsChartShape(goals: seq<Goal>, user: UserId, today: Date)
    ensures var ds := GoalsChart(goals, user, today).goals;
      && |ds| == |GoalsOfUser(goals, user)|
      && (forall i, j :: 0 <= i < j < |ds| ==> ds[i].progressPercentage >= ds[j].progressPercentage)
  {
    var ds := Sorting.SortDesc(GoalEntries(GoalsOfUser(goals, user), today), ProgressOf);
    assert GoalsChart(goals, user, today).goals == ds;
    forall i, j | 0 <= i < j < |ds|
      ensures ds[i].progressPercentage >= ds[j].progressPercentage
    {
      assert ProgressOf(ds[i]) >= ProgressOf(ds[j]);
    }
  }

  /** Goal `g` is shown by entry `d`: its figures, its progress and its days remaining. */
  predicate Shows(d: GoalData, g: Goal, today: Date) {
    && d.goalId == g.id && d.goalName == g.name
    && d.targetAmount == g.targetAmount && d.currentAmount == g.currentAmount
    && d.progressPercentage == GoalDto.Progress(g)
    && d.daysRemaining == DaysRemaining(g, today)
  }

  /** Every entry shows one of the user's goals. */
  lemma GoalsChartSound(goals: seq<Goal>, user: UserId, today: Date)
    ensures var ds := GoalsChart(goals, user, today).goals;
      forall i | 0 <= i < |ds| :: exists g :: g in goals && g.owner == Some(user) && Shows(ds[i], g, today)
  {
    var mine := GoalsOfUser(goals, user);
    var es := GoalEntries(mine, today);
    var ds := Sorting.SortDesc(es, ProgressOf);
    assert GoalsChart(goals, user, today).goals == ds;
    forall i | 0 <= i < |ds|
      ensures exists g :: g in goals && g.owner == Some(user) && Shows(ds[i], g, today)
    {
      assert ds[i] in multiset(es);
      var k :| 0 <= k < |es| && es[k] == ds[i];
      assert mine[k] in mine;
      assert Shows(ds[i], mine[k], today);
    }
  }

  /** Every goal of the user is shown by some entry. */
  lemma GoalsChartCovers(goals: seq<Goal>, user: UserId, today: Date)
    ensures var ds := GoalsChart(goals, user, today).goals;
      forall g | g in goals && g.owner == Some(user) :: exists i :: 0 <= i < |ds| && Shows(ds[i], g, today)
  {
    var mine := GoalsOfUser(goals, user);
    var es := GoalEntries(mine, today);
    var ds := Sorting.SortDesc(es, ProgressOf);
    assert GoalsChart(goals, user, today).goals == ds;
    forall g | g in goals && g.owner == Some(user)
      ensures exists i :: 0 <= i < |ds| && Shows(ds[i], g, today)
    {
      assert g in mine;
      var k :| 0 <= k < |mine| && mine[k] == g;
      assert es[k] in multiset(ds);
      var i :| 0 <= i < |ds| && ds[i] == es[k];
      assert Shows(ds[i], g, today);
    }
  }
}
