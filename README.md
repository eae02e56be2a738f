# Dashboard-Financeiro in Dafny

A model of the computational core of Dashboard-Financeiro, a Spring Boot
personal-finance dashboard. Users record income and expense transactions
filed under categories. They also set savings goals. The dashboard shows:

- a pie of expenses by category;
- a month-by-month income/expense trend;
- the progress of each goal;
- a financial summary for a date window, convertible to another currency;
- PDF reports, named after the window they cover.

The model covers these parts:

- **Dates** (`dates.dfy`, `windows.dfy`): a proleptic-Gregorian date type
  with `java.time` semantics. `plusMonths`/`minusMonths` clamp the day,
  `withDayOfMonth(1)` and `withDayOfYear(1)` snap to the first day,
  `ChronoUnit.DAYS.between` is a difference of epoch days, and year-months
  step one calendar month. `windows.dfy` holds the one rule every service
  uses for optional dates: the start defaults to day 1 of today's month, and
  the end to one month after the start, minus one day.
- **Money** (`money.dfy`): exact decimals. `Round2` is BigDecimal's
  two-place `HALF_UP` rounding. `Percentage` is a rounded share, or 0 when
  the whole is not positive.
- **Repository queries** (`transaction_queries.dfy`): the JPQL methods of
  `TransactionRepository` as functions over the transaction table. These are
  the find queries, the per-type sums (SQL `SUM`, absent over no rows) and the
  per-category `GROUP BY`.
- **Stores** (`goal_service.dfy`, `transaction_service.dfy`,
  `store_keys.dfy`): `FinancialGoalService` and `TransactionServiceImpl`.
  - Each operation is first a function of the store's contents, with its
    ownership and category-access checks. Then a class holding an
    `id -> record` map performs it in place.
  - Each class method is proved equal to its function and keeps the store's
    invariant.
- **Goal records** (`goal_dto.dfy`): `FinancialGoalRequest.toEntity` and its
  defaults, and `FinancialGoalResponse.fromEntity` with the progress
  percentage.
- **Summary** (`financial_summary.dfy`): `FinancialSummaryService`. It
  covers the window's income, expense and balance (absent sums read as
  zero), the per-category breakdowns and the achieved goals.
- **Currency** (`currency.dfy`): `CurrencyService`. It covers the
  same-currency fast path, the dollar hard-wired at rate 1, the failures
  for a missing or zero rate, and a whole summary converted leaf by leaf at
  one rate. A missing rate is unboxed while it is read, so it fails with a
  NullPointerException rather than the unsupported-currency exception the
  code checks for (see Findings); the conversions with that check moved
  first are modelled beside them.
- **Charts** (`chart_data.dfy`, `sorting.dfy`): `ChartDataService`.
  - Each chart is a method with the source's loops, proved equal to a
    function of the tables.
  - The functions' properties are proved as lemmas.
  - `List.sort` is a stable insertion sort by a key, non-increasing.
- **Periods and reports** (`chart_periods.dfy`, `reports.dfy`):
  - the period keywords of `ChartDataController`;
  - the windows and `yyyyMMdd`/`yyyyMM`/`yyyy` file names of
    `FinancialReportController`.

`LocalDate.now()` is a `today` parameter everywhere. The user lookup by name
is a `users` map. Repositories are tables given as sequences, or the maps of
the store classes.

## Model

All source paths are under `src/main/java/com/dashboard/financeiro/`, written in full below.

| member | source | states |
|---|---|---|
| Money.Round2 | src/main/java/com/dashboard/financeiro/service/chart/ChartDataService.java:91-95 | HALF_UP to two places: the result has at most two decimals and keeps the sign of its argument |
| Money.Round2Error | src/main/java/com/dashboard/financeiro/service/currency/CurrencyService.java:94 | rounding moves a value by at most half a cent |
| Money.Round2Odd | src/main/java/com/dashboard/financeiro/service/currency/CurrencyService.java:133-135 | rounding is symmetric: a negative balance rounds like its magnitude |
| Money.Round2Tie | src/main/java/com/dashboard/financeiro/service/currency/CurrencyService.java:133-135 | HALF_UP: a tie (an odd number of half-cents) rounds away from zero, 0.005 to 0.01 and -0.005 to -0.01 |
| Money.Round2Monotone | src/main/java/com/dashboard/financeiro/service/chart/ChartDataService.java:91-95 | rounding preserves order |
| Money.Percentage | src/main/java/com/dashboard/financeiro/service/chart/ChartDataService.java:91-95 | exactly 0, with no division, when the whole is not positive; otherwise a two-place value within half a cent of amount*100/total |
| Money.PercentageBounds | src/main/java/com/dashboard/financeiro/service/chart/ChartDataService.java:91-95 | a part of a positive whole is between 0 and 100 percent |
| Money.PercentageOfWhole | src/main/java/com/dashboard/financeiro/dto/goal/FinancialGoalResponse.java:57-64 | the whole is exactly 100 percent of itself |
| Windows.ResolveWindow | src/main/java/com/dashboard/financeiro/service/FinancialSummaryService.java:39-45 | a given start or end date is kept as it is; a missing start is day 1 of today's month; a missing end is `plusMonths(1).minusDays(1)` of the start in use, so never before it |
| Windows.DefaultIsCurrentMonth | src/main/java/com/dashboard/financeiro/service/chart/ChartDataService.java:51-56 | with no dates, the window is the current month and holds exactly the dates of today's month |
| Windows.DerivedEndNotBeforeStart | src/main/java/com/dashboard/financeiro/service/FinancialSummaryService.java:42-45 | an end derived from the start in use is never before that start |
| Windows.CurrentMonth | src/main/java/com/dashboard/financeiro/controller/report/FinancialReportController.java:130-131 | day 1 of today's month to its last day |
| Windows.CurrentYear | src/main/java/com/dashboard/financeiro/controller/report/FinancialReportController.java:159-160 | January 1 to December 31 of today's year |
| Dates.PlusMonths | src/main/java/com/dashboard/financeiro/service/chart/ChartDataService.java:134 | `plusMonths(n)` moves exactly n calendar months and clamps the day to the target month's length |
| Dates.MinusMonths | src/main/java/com/dashboard/financeiro/controller/chart/ChartDataController.java:66 | `minusMonths(n)` is `plusMonths(-n)`, so it moves exactly n months back with the day clamped, as Dates.PlusMonths states |
| Dates.PlusYears | src/main/java/com/dashboard/financeiro/controller/report/FinancialReportController.java:160 | `plusYears(n)` keeps the month, moves the year by n and clamps the day to the target month's length (Feb 29 to Feb 28) |
| Dates.PrevDay | src/main/java/com/dashboard/financeiro/service/chart/ChartDataService.java:55 | `minusDays(1)` gives an earlier date |
| Dates.PrevDayEpoch | src/main/java/com/dashboard/financeiro/service/chart/ChartDataService.java:55 | `minusDays(1)` moves exactly one epoch day back |
| Dates.YearAfterFirst | src/main/java/com/dashboard/financeiro/controller/report/FinancialReportController.java:159-160 | January 1 plus one year minus one day is December 31 of that year |
| Dates.MonthAfterNotBefore | src/main/java/com/dashboard/financeiro/service/chart/ChartDataService.java:55 | the default end `start.plusMonths(1).minusDays(1)` is never before the start |
| Dates.PlusMonthsYM | src/main/java/com/dashboard/financeiro/service/chart/ChartDataService.java:151 | `YearMonth.plusMonths(n)` is valid and n months on in the month index |
| Dates.MonthAfterFirst | src/main/java/com/dashboard/financeiro/service/chart/ChartDataService.java:55 | one month after the first of a month, minus one day, is that month's last day |
| Dates.BeforeIsEarlierEpochDay | src/main/java/com/dashboard/financeiro/service/chart/ChartDataService.java:232-233 | a date is before another exactly when its epoch day is smaller |
| Dates.DaysBetween | src/main/java/com/dashboard/financeiro/service/chart/ChartDataService.java:233 | `ChronoUnit.DAYS.between(a, b)` is the epoch-day difference; its sign follows Dates.BeforeIsEarlierEpochDay, and ChartData.DaysRemainingPositive uses it |
| Dates.InMonthWindow | src/main/java/com/dashboard/financeiro/service/chart/ChartDataService.java:157-162 | a date lies between a month's first and last day exactly when it falls in that month |
| Dates.YMIsAfterIndex | src/main/java/com/dashboard/financeiro/service/chart/ChartDataService.java:145-152 | `YearMonth.isAfter` is the order of month indices |
| TransactionQueries.FindByUser | src/main/java/com/dashboard/financeiro/repository/TransactionRepository.java:19 | exactly the user's transactions |
| TransactionQueries.FindByUserAndDateBetween | src/main/java/com/dashboard/financeiro/repository/TransactionRepository.java:23 | exactly the user's transactions dated in the inclusive window |
| TransactionQueries.FindByUserAndCategoryAndDateBetween | src/main/java/com/dashboard/financeiro/repository/TransactionRepository.java:25-30 | the user's transactions of that category dated in the inclusive window; TransactionQueries.CategoryQueryRefinesWindowQuery states it |
| TransactionQueries.CategoryQueryRefinesWindowQuery | src/main/java/com/dashboard/financeiro/repository/TransactionRepository.java:25-30 | the category query is the window query further restricted to the category, order kept |
| TransactionQueries.FindByUserOrderByDateDesc | src/main/java/com/dashboard/financeiro/repository/TransactionRepository.java:32 | a permutation of the user's transactions with non-increasing dates |
| TransactionQueries.SumByUserAndTypeAndDateBetween | src/main/java/com/dashboard/financeiro/repository/TransactionRepository.java:40-45 | the sum is absent exactly when no transaction has the user, the type and a date in the window; when present it is the sum of the amounts of exactly those transactions |
| TransactionQueries.SumIncomeByUser | src/main/java/com/dashboard/financeiro/repository/TransactionRepository.java:34-35 | SQL SUM of the user's income over all dates, absent over no rows; TransactionQueries.AllTimeIsWideWindow states it |
| TransactionQueries.SumExpenseByUser | src/main/java/com/dashboard/financeiro/repository/TransactionRepository.java:37-38 | SQL SUM of the user's expenses over all dates, absent over no rows; TransactionQueries.AllTimeIsWideWindow states it |
| TransactionQueries.AllTimeIsWideWindow | src/main/java/com/dashboard/financeiro/repository/TransactionRepository.java:34-38 | the all-time income and expense sums equal the windowed sums over any window holding all of the user's transactions |
| TransactionQueries.GroupByCategory | src/main/java/com/dashboard/financeiro/repository/TransactionRepository.java:47-55 | the per-category GROUP BY; TransactionQueries.GroupByCategoryRows and TransactionQueries.GroupRowsAddUp state it |
| TransactionQueries.GroupByCategoryRows | src/main/java/com/dashboard/financeiro/repository/TransactionRepository.java:47-55 | one row per distinct (id, name) among the matching categorised transactions, each summing exactly them |
| TransactionQueries.GroupRowsAddUp | src/main/java/com/dashboard/financeiro/repository/TransactionRepository.java:47-55 | the rows add up to the categorised part of the matches, and to the flat sum when every match has a category |
| TransactionQueries.SumSplits | src/main/java/com/dashboard/financeiro/repository/TransactionRepository.java:47-55 | categorised and uncategorised parts make up the whole sum |
| TransactionQueries.Partition | src/main/java/com/dashboard/financeiro/repository/TransactionRepository.java:47-55 | summing per key over distinct keys covering every keyed row gives the keyed sum |
| TransactionQueries.KeysOf | src/main/java/com/dashboard/financeiro/repository/TransactionRepository.java:53 | the group keys are distinct and are exactly the keys that occur |
| TransactionQueries.SumKeyedAtMostTotal | src/main/java/com/dashboard/financeiro/service/chart/ChartDataService.java:65-80 | with non-negative amounts the categorised part is at most the total |
| StoreKeys.ListingIsContents | src/main/java/com/dashboard/financeiro/service/FinancialGoalService.java:36-41 | the insertion-ordered table lists every stored record and nothing else |
| StoreKeys.Remove | src/main/java/com/dashboard/financeiro/service/FinancialGoalService.java:101-104 | removing an id from the id list keeps every other id and keeps the ids unique |
| GoalDto.ToEntity | src/main/java/com/dashboard/financeiro/dto/goal/FinancialGoalRequest.java:25-43 | fields copied; current amount defaults to 0 and start date to today; not achieved; an id-only category exactly when a category id is given; no owner |
| GoalDto.FromEntity | src/main/java/com/dashboard/financeiro/dto/goal/FinancialGoalResponse.java:36-67 | fields copied, category given as (id, name, type name) exactly when present, progress at two places: 0 for a non-positive target and otherwise within half a cent of current*100/target |
| GoalDto.ProgressBounds | src/main/java/com/dashboard/financeiro/dto/goal/FinancialGoalResponse.java:57-64 | progress between nothing saved and the target lies in [0, 100], and is 100 at the target |
| GoalDto.ReachedShowsFull | src/main/java/com/dashboard/financeiro/dto/goal/FinancialGoalResponse.java:57-64 | a goal at or above its positive target shows at least 100 percent |
| GoalDto.ProgressExamples | src/main/java/com/dashboard/financeiro/dto/goal/FinancialGoalResponse.java:57-64 | 1000.00 of 1000.00 is 100.00 percent; 500.00 of 1000.00 is 50.00 percent |
| GoalService.AchievedGoalsOf | src/main/java/com/dashboard/financeiro/service/FinancialGoalService.java:36-41 | exactly the goals of the table owned by the user and achieved |
| GoalService.FindGoal | src/main/java/com/dashboard/financeiro/service/FinancialGoalService.java:85-98 | succeeds exactly for an existing goal of the caller; otherwise GoalNotFound, UserNotFound or AccessDenied, in that order |
| GoalService.SaveGoal | src/main/java/com/dashboard/financeiro/service/FinancialGoalService.java:44-69 | `save` as written; GoalService.SaveEffect, GoalService.SaveErrors and GoalService.SaveTakesOverForeignGoal state it |
| GoalService.UpdateGoalProgress | src/main/java/com/dashboard/financeiro/service/FinancialGoalService.java:72-83 | `updateProgress`; GoalService.UpdateProgressRatchet and GoalService.MutationsGuardedByOwner state it |
| GoalService.DeleteGoal | src/main/java/com/dashboard/financeiro/service/FinancialGoalService.java:101-104 | `delete`; GoalService.MutationsGuardedByOwner states it |
| GoalService.SaveEffect | src/main/java/com/dashboard/financeiro/service/FinancialGoalService.java:44-69 | a successful save stores the goal under its id (existing or fresh), owned by the caller, with the loaded accessible category, achieved = incoming flag or current >= target, every other field of the incoming goal kept; a goal whose id is not stored gets the fresh id; every other entry unchanged |
| GoalService.SaveErrors | src/main/java/com/dashboard/financeiro/service/FinancialGoalService.java:46-59 | save fails exactly for an unknown user, an unknown category, or a category owned by another user |
| GoalService.SaveFromRequestRederives | src/main/java/com/dashboard/financeiro/controller/FinancialGoalController.java:83-97 | a full update goes through `toEntity`, so the saved flag is exactly current >= target |
| GoalService.UpdateProgressRatchet | src/main/java/com/dashboard/financeiro/service/FinancialGoalService.java:72-83 | only the current amount and possibly the flag change; achieved is never cleared, is set at or above the target, and otherwise stays false |
| GoalService.AchievedSurvivesLowerAmount | src/main/java/com/dashboard/financeiro/service/FinancialGoalService.java:78-80 | lowering an achieved goal's amount below its target leaves it achieved |
| GoalService.MutationsGuardedByOwner | src/main/java/com/dashboard/financeiro/service/FinancialGoalService.java:72-104 | update and delete succeed exactly when `findById` does; delete then removes only that goal |
| GoalService.SaveTakesOverForeignGoal | src/main/java/com/dashboard/financeiro/service/FinancialGoalService.java:44-69 | as written, saving with another user's goal id succeeds and reassigns that goal to the caller |
| GoalService.SaveGoalChecked | src/main/java/com/dashboard/financeiro/service/FinancialGoalService.java:44-69 | `save` with the ownership check `findById` makes; GoalService.SaveCheckedKeepsForeignGoals states it |
| GoalService.SaveCheckedKeepsForeignGoals | src/main/java/com/dashboard/financeiro/service/FinancialGoalService.java:44-69 | the checked save refuses a foreign id with AccessDenied, otherwise behaves as written, and never changes another user's goal |
| GoalService.GoalStore.FindById | src/main/java/com/dashboard/financeiro/service/FinancialGoalService.java:85-98 | the lookup answers as `FindGoal` over the stored goals |
| GoalService.GoalStore.Save | src/main/java/com/dashboard/financeiro/service/FinancialGoalService.java:44-69 | the store becomes the checked save's result (or is unchanged on error); a new id is appended to the table; the invariant is kept |
| GoalService.GoalStore.UpdateProgress | src/main/java/com/dashboard/financeiro/service/FinancialGoalService.java:72-83 | the store becomes `UpdateGoalProgress`'s result, or is unchanged on error |
| GoalService.GoalStore.Delete | src/main/java/com/dashboard/financeiro/service/FinancialGoalService.java:101-104 | the store becomes `DeleteGoal`'s result with the id dropped from the table, or is unchanged on error |
| GoalService.GoalStore.FindAchievedGoalsByUsername | src/main/java/com/dashboard/financeiro/service/FinancialGoalService.java:36-41 | UserNotFound exactly for an unknown user; otherwise the caller's achieved goals in table order |
| GoalService.AchievedListingIsExact | src/main/java/com/dashboard/financeiro/service/FinancialGoalService.java:36-41 | the achieved listing of a valid store holds every achieved stored goal of the user and nothing else |
| TransactionService.FindTransaction | src/main/java/com/dashboard/financeiro/service/TransactionServiceImpl.java:119-132 | succeeds exactly for an existing transaction of the caller; otherwise TransactionNotFound, UserNotFound or AccessDenied |
| TransactionService.SaveTransaction | src/main/java/com/dashboard/financeiro/service/TransactionServiceImpl.java:31-47 | `save`; TransactionService.SaveTransactionEffect states it |
| TransactionService.UpdateTransaction | src/main/java/com/dashboard/financeiro/service/TransactionServiceImpl.java:83-109 | `update`; TransactionService.UpdateTransactionEffect and TransactionService.UpdateTransactionErrors state it |
| TransactionService.DeleteTransaction | src/main/java/com/dashboard/financeiro/service/TransactionServiceImpl.java:113-116 | `delete`; TransactionService.DeleteTransactionGuarded states it |
| TransactionService.FilteredTransactions | src/main/java/com/dashboard/financeiro/service/TransactionServiceImpl.java:58-79 | `findByFilters`; TransactionService.FilteredTransactionsSelect states it |
| TransactionService.SaveTransactionEffect | src/main/java/com/dashboard/financeiro/service/TransactionServiceImpl.java:31-47 | save fails exactly for an unknown user, an unknown or foreign category; otherwise it adds the transaction under the fresh id, owned by the caller, filed under the loaded category, and nothing else changes |
| TransactionService.UpdateTransactionEffect | src/main/java/com/dashboard/financeiro/service/TransactionServiceImpl.java:83-109 | a successful update copies amount, description, date and type, keeps id and owner, keeps the category for the same id or moves to the new accessible one; other entries unchanged |
| TransactionService.UpdateTransactionErrors | src/main/java/com/dashboard/financeiro/service/TransactionServiceImpl.java:83-109 | update fails with the lookup's error, or for a category change to a missing or foreign category, and succeeds when the category id is unchanged |
| TransactionService.DeleteTransactionGuarded | src/main/java/com/dashboard/financeiro/service/TransactionServiceImpl.java:113-116 | delete succeeds exactly when `findById` does and removes only that id |
| TransactionService.FilteredTransactionsSelect | src/main/java/com/dashboard/financeiro/service/TransactionServiceImpl.java:58-79 | the listing holds exactly the caller's transactions in the resolved window, filed under the given category when one is given; errors for an unknown user or category |
| TransactionService.TransactionStore.FindById | src/main/java/com/dashboard/financeiro/service/TransactionServiceImpl.java:119-132 | the lookup answers as `FindTransaction` over the stored transactions |
| TransactionService.TransactionStore.Save | src/main/java/com/dashboard/financeiro/service/TransactionServiceImpl.java:31-47 | the store becomes `SaveTransaction`'s result under the next id, appended to the table, or is unchanged on error |
| TransactionService.TransactionStore.Update | src/main/java/com/dashboard/financeiro/service/TransactionServiceImpl.java:83-109 | the store becomes `UpdateTransaction`'s result, or is unchanged on error |
| TransactionService.TransactionStore.Delete | src/main/java/com/dashboard/financeiro/service/TransactionServiceImpl.java:113-116 | the store becomes `DeleteTransaction`'s result with the id dropped from the table, or is unchanged on error |
| TransactionService.TransactionStore.FindByFilters | src/main/java/com/dashboard/financeiro/service/TransactionServiceImpl.java:58-79 | answers as `FilteredTransactions` over the stored table |
| FinancialSummary.CategorySummaries | src/main/java/com/dashboard/financeiro/service/FinancialSummaryService.java:89-113 | one record per grouped row, same order, id, name and amount copied, typed with the type's description |
| FinancialSummary.CategorySummariesKeepTotal | src/main/java/com/dashboard/financeiro/service/FinancialSummaryService.java:89-113 | the records add up to the rows' total |
| FinancialSummary.GetCategorySummaries | src/main/java/com/dashboard/financeiro/service/FinancialSummaryService.java:89-113 | the loop yields the records of the group-by query's rows |
| FinancialSummary.MapToGoalSummaries | src/main/java/com/dashboard/financeiro/service/FinancialSummaryService.java:115-127 | one record per goal, in order, fields copied, category = its name, absent when the goal has none |
| FinancialSummary.FinancialSummaryOf | src/main/java/com/dashboard/financeiro/service/FinancialSummaryService.java:34-87 | `getFinancialSummary`; FinancialSummary.SummaryTotals, FinancialSummary.SummaryBreakdowns and FinancialSummary.SummaryGoals state it |
| FinancialSummary.GetFinancialSummary | src/main/java/com/dashboard/financeiro/service/FinancialSummaryService.java:34-87 | the method computes the summary of the resolved window |
| FinancialSummary.SummaryTotals | src/main/java/com/dashboard/financeiro/service/FinancialSummaryService.java:39-64 | fails exactly for an unknown user; balance = income - expense; an absent sum (no matching transaction) reads as 0, a present one is taken as is |
| FinancialSummary.SummaryBreakdowns | src/main/java/com/dashboard/financeiro/service/FinancialSummaryService.java:71-76 | expense and income breakdowns have one record per category group of that type in the window, typed accordingly, adding up to the type's total when every transaction has a category |
| FinancialSummary.SummaryGoals | src/main/java/com/dashboard/financeiro/service/FinancialSummaryService.java:67-68 | the goal list has one achieved record for each of the user's achieved goals and nothing else |
| Currency.RateOf | src/main/java/com/dashboard/financeiro/service/currency/CurrencyService.java:83-88 | the dollar is 1 whatever the table says; any other code has a rate exactly when it is in the table |
| Currency.ConvertCurrency | src/main/java/com/dashboard/financeiro/service/currency/CurrencyService.java:66-105 | `convertCurrency` as written; Currency.ConversionOutcome and the lemmas after it state it |
| Currency.ConvertCurrencyChecked | src/main/java/com/dashboard/financeiro/service/currency/CurrencyService.java:83-88 | `convertCurrency` with the supported-currency check before the rates are unboxed; Currency.CheckedConversionOutcome states it |
| Currency.SameCurrencyFastPath | src/main/java/com/dashboard/financeiro/service/currency/CurrencyService.java:67-77 | the same currency on both sides gives the amount unrounded at rate 1, whatever the table holds |
| Currency.DollarRateIgnored | src/main/java/com/dashboard/financeiro/service/currency/CurrencyService.java:83-84 | a dollar entry in the table never changes a conversion |
| Currency.ConversionOutcome | src/main/java/com/dashboard/financeiro/service/currency/CurrencyService.java:66-105 | never reports an unsupported currency: fails with the unboxing NullPointerException exactly for a missing non-dollar rate, with a non-finite rate exactly for a zero source rate; otherwise rate = target/source and the amount is amount*rate rounded HALF_UP to two places |
| Currency.CheckedConversionOutcome | src/main/java/com/dashboard/financeiro/service/currency/CurrencyService.java:83-88 | with the check first, a missing non-dollar rate is reported as an unsupported currency, the unboxing exception never occurs, and every other answer is the as-written one |
| Currency.UnknownCurrencyUnboxesNull | src/main/java/com/dashboard/financeiro/service/currency/CurrencyService.java:83-86 | with the table USD 1, BRL 5, EUR 0.85, GBP 0.75, BRL to XYZ throws the NullPointerException as written and the unsupported-currency exception when checked first |
| Currency.ReciprocalRates | src/main/java/com/dashboard/financeiro/service/currency/CurrencyService.java:91 | converting there and back uses reciprocal rates |
| Currency.HundredRealsInDollars | src/main/java/com/dashboard/financeiro/service/currency/CurrencyService.java:91-94 | with USD 1 and BRL 5, 100.00 BRL is 20.00 USD at rate 0.2 |
| Currency.DefaultCurrencyUnchanged | src/main/java/com/dashboard/financeiro/service/currency/CurrencyService.java:114-117 | target BRL returns the very summary, with no rate lookup |
| Currency.ConvertFinancialSummary | src/main/java/com/dashboard/financeiro/service/currency/CurrencyService.java:110-199 | `convertFinancialSummary` as written; Currency.DefaultCurrencyUnchanged, Currency.SummaryNeedsRealRate and Currency.ConversionKeepsStructure state it |
| Currency.SummaryNeedsRealRate | src/main/java/com/dashboard/financeiro/service/currency/CurrencyService.java:123-128 | any other target fails with the unboxing NullPointerException exactly when it is not the dollar and not in the table, whatever the real's rate; otherwise with the unsupported-currency exception exactly when the real's rate is missing, and with a non-finite rate exactly when it is zero |
| Currency.ConvertFinancialSummaryChecked | src/main/java/com/dashboard/financeiro/service/currency/CurrencyService.java:123-127 | `convertFinancialSummary` with the supported-currency check before the target's rate is unboxed; Currency.CheckedSummaryErrors states it |
| Currency.CheckedSummaryErrors | src/main/java/com/dashboard/financeiro/service/currency/CurrencyService.java:123-127 | with the check first, either missing rate is reported as an unsupported currency, the unboxing exception never occurs, and every other answer is the as-written one |
| Currency.UnknownTargetUnboxesNull | src/main/java/com/dashboard/financeiro/service/currency/CurrencyService.java:123-127 | with only the dollar in the table, converting a summary to XYZ throws the NullPointerException as written and the unsupported-currency exception when checked first |
| Currency.ConversionKeepsStructure | src/main/java/com/dashboard/financeiro/service/currency/CurrencyService.java:130-198 | a converted summary keeps list lengths and order (missing lists become empty) and every id, name, type, flag and label, scales every amount by the one rate, and is tagged with the target |
| Currency.ScaleCategories | src/main/java/com/dashboard/financeiro/service/currency/CurrencyService.java:137-166 | each category keeps everything but its amount, which is scaled |
| Currency.ScaleGoals | src/main/java/com/dashboard/financeiro/service/currency/CurrencyService.java:169-186 | each goal keeps everything but target and current amount, which are scaled |
| Currency.ConvertedBalanceNearDifference | src/main/java/com/dashboard/financeiro/service/currency/CurrencyService.java:133-135 | leaves are rounded separately, so the converted balance stays within 1.5 cents of converted income minus converted expense |
| Currency.AvailableCurrencies | src/main/java/com/dashboard/financeiro/service/currency/CurrencyService.java:204-211 | exactly the table's codes, each mapped to itself |
| ChartData.ColorAt | src/main/java/com/dashboard/financeiro/service/chart/ChartDataService.java:38-41 | every colour handed out is one of the palette's |
| ChartData.ColorsCycle | src/main/java/com/dashboard/financeiro/service/chart/ChartDataService.java:98-99 | colours repeat every 12 entries, and two entries share a colour exactly when their positions agree modulo 12 |
| ChartData.ExpensesIn | src/main/java/com/dashboard/financeiro/service/chart/ChartDataService.java:59-62 | exactly the user's expenses dated in the window |
| ChartData.GroupExpenses | src/main/java/com/dashboard/financeiro/service/chart/ChartDataService.java:65-75 | the map-filling loop yields the categories in first-appearance order and, for each, the sum of its expenses |
| ChartData.BuildEntries | src/main/java/com/dashboard/financeiro/service/chart/ChartDataService.java:84-110 | the entries loop builds the i-th entry with its category's sum, its share of the total and the i-th colour |
| ChartData.ExpenseChart | src/main/java/com/dashboard/financeiro/service/chart/ChartDataService.java:65-118 | the pie of the given expenses; ChartData.ExpenseChartShape, ChartData.ExpenseChartCoversCategories, ChartData.ExpenseChartEntriesSound and ChartData.ExpenseShares state it |
| ChartData.ExpensesByCategory | src/main/java/com/dashboard/financeiro/service/chart/ChartDataService.java:46-119 | UserNotFound for an unknown user; otherwise the pie of the user's expenses in the resolved window |
| ChartData.ExpenseChartShape | src/main/java/com/dashboard/financeiro/service/chart/ChartDataService.java:78-113 | one entry per distinct category, by non-increasing amount, beside the total of all expenses |
| ChartData.ExpenseChartCoversCategories | src/main/java/com/dashboard/financeiro/service/chart/ChartDataService.java:65-110 | every category of an expense has an entry summing exactly that category's expenses |
| ChartData.ExpenseChartEntriesSound | src/main/java/com/dashboard/financeiro/service/chart/ChartDataService.java:84-110 | every entry is some expense category's sum, with its percentage of the total |
| ChartData.ExpenseShares | src/main/java/com/dashboard/financeiro/service/chart/ChartDataService.java:59-95 | shares lie in [0, 100]; entries add up to at most the total, exactly the total when every expense has a category |
| ChartData.SumEntriesRearranged | src/main/java/com/dashboard/financeiro/service/chart/ChartDataService.java:113 | sorting the entries does not change their sum |
| ChartData.DistinctRearranged | src/main/java/com/dashboard/financeiro/service/chart/ChartDataService.java:84 | the map's iteration order over distinct keys lists distinct keys |
| ChartData.MonthsShown | src/main/java/com/dashboard/financeiro/service/chart/ChartDataService.java:129-131 | a positive month count is kept; absent or not positive becomes 12 |
| ChartData.MonthsBetween | src/main/java/com/dashboard/financeiro/service/chart/ChartDataService.java:145-152 | the loop lists every year-month from the first to the last, consecutively |
| ChartData.Buckets | src/main/java/com/dashboard/financeiro/service/chart/ChartDataService.java:155-198 | one bucket per month, and the running maximum of incomes and expenses from zero |
| ChartData.MonthlyTrend | src/main/java/com/dashboard/financeiro/service/chart/ChartDataService.java:124-204 | UserNotFound for an unknown user; otherwise the trend of the months shown ending with today's |
| ChartData.Trend | src/main/java/com/dashboard/financeiro/service/chart/ChartDataService.java:133-204 | the trend of the months shown and its scale; ChartData.TrendMonths, ChartData.TrendMonthSums and ChartData.TrendScale state it |
| ChartData.TrendMonths | src/main/java/com/dashboard/financeiro/service/chart/ChartDataService.java:133-177 | exactly n consecutive months, oldest first, the last being today's month; each balance is income - expense |
| ChartData.TrendMonthSums | src/main/java/com/dashboard/financeiro/service/chart/ChartDataService.java:137-174 | each month's income (expense) sums exactly the user's income (expense) transactions dated in that month and not after today |
| ChartData.PeakBounds | src/main/java/com/dashboard/financeiro/service/chart/ChartDataService.java:142-185 | the running maximum is at least 0 and every amount, and is 0 or one of the amounts |
| ChartData.TrendScale | src/main/java/com/dashboard/financeiro/service/chart/ChartDataService.java:202 | the scale is 1.1 times the largest income or expense shown, or 0; it is at least 1.1 times every bar |
| ChartData.GoalsOfUser | src/main/java/com/dashboard/financeiro/service/chart/ChartDataService.java:214 | exactly the user's goals |
| ChartData.BuildGoalData | src/main/java/com/dashboard/financeiro/service/chart/ChartDataService.java:221-261 | the loop body builds the k-th goal's entry |
| ChartData.BuildGoalEntries | src/main/java/com/dashboard/financeiro/service/chart/ChartDataService.java:217-262 | the loop builds one entry per goal, in order |
| ChartData.GoalsProgress | src/main/java/com/dashboard/financeiro/service/chart/ChartDataService.java:209-270 | UserNotFound for an unknown user; otherwise the goals chart of the user |
| ChartData.GoalsChart | src/main/java/com/dashboard/financeiro/service/chart/ChartDataService.java:214-268 | the goals chart; ChartData.GoalsChartShape, ChartData.GoalsChartSound and ChartData.GoalsChartCovers state it |
| ChartData.DaysRemainingPositive | src/main/java/com/dashboard/financeiro/service/chart/ChartDataService.java:231-234 | days remaining are present exactly for an open goal with an end date after today, and are then at least 1 and the epoch-day difference |
| ChartData.GoalsChartShape | src/main/java/com/dashboard/financeiro/service/chart/ChartDataService.java:265 | one entry per goal of the user, by non-increasing progress |
| ChartData.GoalsChartSound | src/main/java/com/dashboard/financeiro/service/chart/ChartDataService.java:214-265 | every entry shows one of the user's goals, with its progress and days remaining |
| ChartData.GoalsChartCovers | src/main/java/com/dashboard/financeiro/service/chart/ChartDataService.java:214-265 | every goal of the user is shown by some entry |
| Sorting.SortDesc | src/main/java/com/dashboard/financeiro/service/chart/ChartDataService.java:113 | the sorted list is a permutation of its input, ordered by non-increasing key |
| Sorting.InsertSorted | src/main/java/com/dashboard/financeiro/service/chart/ChartDataService.java:265 | inserting into a sorted list keeps it sorted |
| Sorting.SortDescStable | src/main/java/com/dashboard/financeiro/service/chart/ChartDataService.java:113 | the sort is stable: the elements with any one key come out in their input order |
| ChartPeriods.PeriodWindow | src/main/java/com/dashboard/financeiro/controller/chart/ChartDataController.java:54-73 | the window of each period keyword; ChartPeriods.PeriodWindowsHoldToday states it |
| ChartPeriods.PeriodMonths | src/main/java/com/dashboard/financeiro/controller/chart/ChartDataController.java:108-120 | the month count of each period keyword; ChartPeriods.DashboardPeriodOverrides states it |
| ChartPeriods.RequestDates | src/main/java/com/dashboard/financeiro/controller/chart/ChartDataController.java:50-73 | the dates after the period switch; ChartPeriods.UnknownPeriodKeepsRequest states it |
| ChartPeriods.RequestMonths | src/main/java/com/dashboard/financeiro/controller/chart/ChartDataController.java:105-120 | the month count after the period switch; ChartPeriods.UnknownPeriodKeepsRequest states it |
| ChartPeriods.GetDashboardParams | src/main/java/com/dashboard/financeiro/controller/chart/ChartDataController.java:145-180 | the dashboard GET parameters; ChartPeriods.DashboardGetIsPostWithoutPeriod states it |
| ChartPeriods.PostDashboardParams | src/main/java/com/dashboard/financeiro/controller/chart/ChartDataController.java:185-230 | the dashboard POST parameters; ChartPeriods.DashboardPeriodOverrides states it |
| ChartPeriods.PeriodWindowsHoldToday | src/main/java/com/dashboard/financeiro/controller/chart/ChartDataController.java:54-73 | exactly the four keywords select a window, which holds today: the current month, the current year, or day 1 of the month 3 (6) back up to today |
| ChartPeriods.UnknownPeriodKeepsRequest | src/main/java/com/dashboard/financeiro/controller/chart/ChartDataController.java:108-120 | with no keyword, or another text, the request's dates and months are used as given |
| ChartPeriods.DashboardPeriodOverrides | src/main/java/com/dashboard/financeiro/controller/chart/ChartDataController.java:196-230 | a keyword's window overrides the request's dates, else the current-month defaults apply; months are the keyword's, else the request's if positive, else 12 |
| ChartPeriods.DashboardGetIsPostWithoutPeriod | src/main/java/com/dashboard/financeiro/controller/chart/ChartDataController.java:145-180 | the dashboard GET and the POST without a period hand the same parameters to the services |
| ChartPeriods.PostDashboardChartsData | src/main/java/com/dashboard/financeiro/controller/chart/ChartDataController.java:185-247 | UserNotFound for an unknown user; otherwise the three charts for the resolved parameters |
| ChartPeriods.LastMonthsWindowSpansOneMoreMonth | src/main/java/com/dashboard/financeiro/controller/chart/ChartDataController.java:208-217 | for last3months (last6months) the expense window starts one calendar month before the trend and spans 4 (7) calendar months |
| Reports.YearText | src/main/java/com/dashboard/financeiro/controller/report/FinancialReportController.java:169 | pattern `yyyy`; Reports.DateStampValue and Reports.CustomNameDeterminesWindow state it for years 1 to 9999 |
| Reports.DateStamp | src/main/java/com/dashboard/financeiro/controller/report/FinancialReportController.java:49-51 | pattern `yyyyMMdd`; Reports.DateStampValue and Reports.DateStampOrder state it |
| Reports.GenerateFinancialReport | src/main/java/com/dashboard/financeiro/controller/report/FinancialReportController.java:27-65 | GET /financial; Reports.ReportOutcome states it |
| Reports.GenerateFinancialReportWithBody | src/main/java/com/dashboard/financeiro/controller/report/FinancialReportController.java:67-125 | POST /financial; Reports.FixedReportTypesIgnoreDates and Reports.CustomPostIsGet state it |
| Reports.GenerateMonthlyFinancialReport | src/main/java/com/dashboard/financeiro/controller/report/FinancialReportController.java:127-154 | GET /financial/monthly; Reports.MonthlyNameStamp and Reports.ReportOutcome state it |
| Reports.GenerateAnnualFinancialReport | src/main/java/com/dashboard/financeiro/controller/report/FinancialReportController.java:156-183 | GET /financial/annual; Reports.ReportOutcome states it |
| Reports.Decimal | src/main/java/com/dashboard/financeiro/controller/report/FinancialReportController.java:49-51 | a number is written with at least one digit and digits only |
| Reports.PaddedExact | src/main/java/com/dashboard/financeiro/controller/report/FinancialReportController.java:49-51 | a number below 10^width is written in exactly width digits and reads back as itself |
| Reports.DateStampValue | src/main/java/com/dashboard/financeiro/controller/report/FinancialReportController.java:49-51 | for years 1 to 9999, `yyyyMMdd` is eight digits denoting year*10000 + month*100 + day |
| Reports.DateStampOrder | src/main/java/com/dashboard/financeiro/controller/report/FinancialReportController.java:49-51 | stamps order as their dates do, and equal stamps mean equal dates |
| Reports.CustomNameDeterminesWindow | src/main/java/com/dashboard/financeiro/controller/report/FinancialReportController.java:49-51 | for years 1 to 9999 a custom report's file name determines its window (outside that range it does not: year 0 and year 1 both print `0001`) |
| Reports.MonthlyNameStamp | src/main/java/com/dashboard/financeiro/controller/report/FinancialReportController.java:139-140 | the monthly name's `yyyyMM` part denotes year*100 + month of the current month |
| Reports.FixedReportTypesIgnoreDates | src/main/java/com/dashboard/financeiro/controller/report/FinancialReportController.java:78-106 | POST "monthly" and "annual" answer as the dedicated GET endpoints, whatever dates are sent |
| Reports.CustomPostIsGet | src/main/java/com/dashboard/financeiro/controller/report/FinancialReportController.java:85-111 | any other report type is the GET endpoint with the same dates |
| Reports.ReportOutcome | src/main/java/com/dashboard/financeiro/controller/report/FinancialReportController.java:27-183 | each endpoint answers 500 exactly when generation over its window fails, otherwise the bytes under its file name |

## Left out

- The exchange-rate fetch (`getExchangeRates`) goes over the network. The rate table is a parameter instead. Its `Double` rates are exact reals, and the quotient `toRate / fromRate` is exact, not a double.
- The conversion timestamp and the pt-BR month labels of the trend ("jan/2024") are formatting with no bearing on the figures, so they are not modelled.
- `Currency.ConvertFinancialSummary` converts a given summary. The call to `getFinancialSummary` it starts with is `FinancialSummary.FinancialSummaryOf`, composed by the caller.
- `HashMap` iteration order in `getExpensesByCategory` is unspecified. It is the parameter `iteration`, constrained only to rearrange the keys (`ChartData.IsRearrangement`).
- The JPQL queries give no row order. The model lists rows in table order and groups in order of first appearance.
- The summary carries a `currency` tag that the response class does not declare; it stands for the value the conversion sets on the built response, and the unconverted summary leaves it absent.
- PDF generation (`ReportService`) is not part of this model. It is a function `generate` yielding the bytes, or `None` where it throws.
- Authentication, roles (`@PreAuthorize`), HTTP status mapping of exceptions, and JPA persistence are left out. Service errors are a `ServiceError` value.
- `FinancialGoalService.findAllByUsername` and `TransactionServiceImpl.findAllByUser` are plain listings outside the modelled operations. The repository's `findByUserOrderByDateDesc` they rest on is modelled.
- GoalDto.GoalRequest: a request without a target amount (bean validation rejects it) is not modelled.
- GoalDto.FromEntity requires a loaded category. A goal whose category carries only an id would make the source fail on the missing type, and stored goals always have loaded categories.
- A category reference without an id (`getCategory().getId() == null`) is not modelled. A category is always given with its id.
- TransactionService.UpdateTransaction: a stored transaction without a category makes the source fail with a null dereference. The model answers `MissingCategory`; the store's invariant rules that case out.
- GoalService.GoalStore.Save performs the corrected save (`SaveGoalChecked`), not the as-written one. See Findings.
- `Integer months` is an unbounded integer. A month count near `Integer.MAX_VALUE` cannot arise from the period keywords.
- Years are unbounded. `yyyy` names are proved injective only for years 1 to 9999.

## Findings

| source | as written | input that shows it | evidently intended | confidence | as-written member | corrected member |
|---|---|---|---|---|---|---|
| src/main/java/com/dashboard/financeiro/service/FinancialGoalService.java:44-69 | `save` never checks who owns the goal an incoming id names; the full update `PUT /api/goals/{id}` (src/main/java/com/dashboard/financeiro/controller/FinancialGoalController.java:83-97) passes the path id straight to it | user B sends `PUT /api/goals/7` where goal 7 belongs to user A: the goal is overwritten and now belongs to B | refuse with AccessDenied, as `findById` does for update-progress and delete | not executed | GoalService.SaveTakesOverForeignGoal | GoalService.SaveCheckedKeepsForeignGoals |
| src/main/java/com/dashboard/financeiro/service/currency/CurrencyService.java:83-86 | `code.equals("USD") ? 1.0 : rates.get(code)` has type `double`, so an absent rate is unboxed and throws a NullPointerException on that line; the null check on the next lines never fires | the source's own test converts BRL to XYZ (src/test/java/com/dashboard/financeiro/service/currency/CurrencyServiceTest.java:139-150) and expects IllegalArgumentException; the code throws NullPointerException | report an unsupported currency, as the null check and the test intend | not executed | Currency.UnknownCurrencyUnboxesNull | Currency.CheckedConversionOutcome |
| src/main/java/com/dashboard/financeiro/service/currency/CurrencyService.java:123-127 | the target's rate is read the same unboxing way, so a target missing from the table throws NullPointerException before the null check; only a missing real's rate reaches "moeda não suportada" | convert a summary to XYZ with a table holding only USD | report an unsupported currency for either missing rate | not executed | Currency.UnknownTargetUnboxesNull | Currency.CheckedSummaryErrors |
