/**
 * CurrencyService: conversion of an amount, and of a whole financial
 * summary, between currencies. The exchange-rate table (rates against the
 * US dollar, keyed by currency code) is an input.
 */
module Currency {
  import opened Wrappers
  import opened Money
  import opened FinancialSummary

  /** The system's own currency. */
  const DefaultCurrency: string := "BRL"

  /** The base of the rate table. */
  const BaseCurrency: string := "USD"

  /**
   * `UnsupportedCurrency` is the "moeda não suportada" IllegalArgumentException;
   * `NullRate` is the NullPointerException of unboxing an absent rate, which
   * `code.equals("USD") ? 1.0 : rates.get(code)` does because its type is
   * `double`; `NonFiniteRate` is `BigDecimal.valueOf` refusing the infinite
   * or NaN quotient of a division by a zero rate.
   */
  datatype CurrencyError = UnsupportedCurrency | NullRate | NonFiniteRate

  datatype Conversion = Conversion(
    originalAmount: real,
    originalCurrency: string,
    convertedAmount: real,
    targetCurrency: string,
    exchangeRate: real)

  /** The rate of `code` against the dollar: the dollar itself is 1 whatever the table says. */
  function RateOf(code: string, rates: map<string, real>): (r: Option<real>)
    ensures code == BaseCurrency ==> r == Some(1.0)
    ensures code != BaseCurrency ==> (r.Some? <==> code in rates)
    ensures code != BaseCurrency && code in rates ==> r == Some(rates[code])
  {
    if code == BaseCurrency then Some(1.0)
    else if code in rates then Some(rates[code])
    else None
  }

  /** One amount at a rate: multiplied, then two places HALF_UP. */
  function Scale(x: real, rate: real): real {
    Round2(x * rate)
  }

  /** A conversion between two known rates against the dollar: rate target over source, amount rounded to cents. */
  function ConvertAt(amount: real, from: string, to: string, fromRate: real, toRate: real): Conversion
    requires fromRate != 0.0
  {
    var rate := toRate / fromRate;
    Conversion(amount, from, Round2(amount * rate), to, rate)
  }

  /**
   * `convertCurrency` as written: an absent rate is unboxed while it is read,
   * so the null check that would report an unsupported currency never fires.
   */
  function ConvertCurrency(amount: real, from: string, to: string, rates: map<string, real>): Result<Conversion, CurrencyError>
  {
    if from == to then Ok(Conversion(amount, from, amount, to, 1.0))
    else
      var fromRate := RateOf(from, rates);
      var toRate := RateOf(to, rates);
      if fromRate.None? || toRate.None? then Err(NullRate)
      else if fromRate.value == 0.0 then Err(NonFiniteRate)
      else Ok(ConvertAt(amount, from, to, fromRate.value, toRate.value))
  }

  /** `convertCurrency` with the supported-currency check made before any rate is unboxed. */
  function ConvertCurrencyChecked(amount: real, from: string, to: string, rates: map<string, real>): Result<Conversion, CurrencyError>
  {
    if from != to && (RateOf(from, rates).None? || RateOf(to, rates).None?) then Err(UnsupportedCurrency)
    else ConvertCurrency(amount, from, to, rates)
  }

  /** The same currency on both sides: the amount comes back unrounded, at rate 1, whatever the table holds. */
  lemma SameCurrencyFastPath(amount: real, code: string, rates: map<string, real>)
    ensures ConvertCurrency(amount, code, code, rates) == Ok(Conversion(amount, code, amount, code, 1.0))
  {
  }

  /** A dollar entry in the table is never consulted. */
  lemma DollarRateIgnored(amount: real, from: string, to: string, rates: map<string, real>, x: real)
    ensures ConvertCurrency(amount, from, to, rates[BaseCurrency := x]) == ConvertCurrency(amount, from, to, rates)
  {
    var table := rates[BaseCurrency := x];
    assert RateOf(from, table) == RateOf(from, rates);
    assert RateOf(to, table) == RateOf(to, rates);
  }

  /**
   * Between different currencies the conversion fails exactly when a
   * non-dollar side is missing from the table (unboxing it throws), or the
   * source rate is zero; it never reports an unsupported currency. Otherwise
   * the rate is target over source and the amount is rounded to cents.
   */
  lemma ConversionOutcome(amount: real, from: string, to: string, rates: map<string, real>)
    requires from != to
    ensures var r := ConvertCurrency(amount, from, to, rates);
      r != Err(UnsupportedCurrency)
      && (r == Err(NullRate) <==> (from != BaseCurrency && from !in rates) || (to != BaseCurrency && to !in rates))
      && (r == Err(NonFiniteRate) <==> RateOf(from, rates).Some? && RateOf(to, rates).Some? && RateOf(from, rates).value == 0.0)
      && (r.Ok? ==>
            var rate := RateOf(to, rates).value / RateOf(from, rates).value;
            r.value.exchangeRate == rate
            && r.value.originalAmount == amount && r.value.originalCurrency == from && r.value.targetCurrency == to
            && r.value.convertedAmount == Round2(amount * rate)
            && IsCents(r.value.convertedAmount)
            && -0.005 <= r.value.convertedAmount - amount * rate <= 0.005)
  {
    if ConvertCurrency(amount, from, to, rates).Ok? {
      Round2Error(amount * (RateOf(to, rates).value / RateOf(from, rates).value));
    }
  }

  /** Converting there and back uses reciprocal rates. */
  lemma {:induction false} ReciprocalRates(amount: real, a: string, b: string, rates: map<string, real>)
    requires ConvertCurrency(amount, a, b, rates).Ok? && ConvertCurrency(amount, b, a, rates).Ok?
    ensures ConvertCurrency(amount, a, b, rates).value.exchangeRate * ConvertCurrency(amount, b, a, rates).value.exchangeRate == 1.0
  {
    if a != b {
      var ra := RateOf(a, rates).value;
      var rb := RateOf(b, rates).value;
      assert ra != 0.0 && rb != 0.0;
      assert ConvertCurrency(amount, a, b, rates) == Ok(ConvertAt(amount, a, b, ra, rb));
      assert ConvertCurrency(amount, b, a, rates) == Ok(ConvertAt(amount, b, a, rb, ra));
      ReciprocalRatios(ra, rb);
    }
  }

  lemma ReciprocalRatios(ra: real, rb: real)
    requires ra != 0.0 && rb != 0.0
    ensures (rb / ra) * (ra / rb) == 1.0
  {
    calc {
      (rb / ra) * (ra / rb);
      (rb * ra) / (ra * rb);
      1.0;
    }
  }

  /**
   * The corrected conversion reports a missing rate as an unsupported
   * currency, and otherwise answers exactly as the conversion as written.
   */
  lemma CheckedConversionOutcome(amount: real, from: string, to: string, rates: map<string, real>)
    ensures var r := ConvertCurrencyChecked(amount, from, to, rates);
      (r == Err(UnsupportedCurrency) <==>
         from != to && ((from != BaseCurrency && from !in rates) || (to != BaseCurrency && to !in rates)))
      && r != Err(NullRate)
      && (r != Err(UnsupportedCurrency) ==> r == ConvertCurrency(amount, from, to, rates))
  {
    if from != to {
      ConversionOutcome(amount, from, to, rates);
    }
  }

  /**
   * The source's test table has no "XYZ": converting reais to it throws the
   * NullPointerException, where the test expects the unsupported-currency
   * exception that the corrected conversion gives.
   */
  lemma UnknownCurrencyUnboxesNull()
    ensures var rates := map["USD" := 1.0, "BRL" := 5.0, "EUR" := 0.85, "GBP" := 0.75];
      ConvertCurrency(100.0, "BRL", "XYZ", rates) == Err(NullRate)
      && ConvertCurrencyChecked(100.0, "BRL", "XYZ", rates) == Err(UnsupportedCurrency)
  {
    var rates := map["USD" := 1.0, "BRL" := 5.0, "EUR" := 0.85, "GBP" := 0.75];
    assert "XYZ" != BaseCurrency && "XYZ" !in rates;
  }

  /** With the dollar at 1 and the real at 5, one hundred reais are twenty dollars. */
  lemma HundredRealsInDollars()
    ensures var r := ConvertCurrency(100.0, "BRL", "USD", map["USD" := 1.0, "BRL" := 5.0]);
      r.Ok? && r.value.convertedAmount == 20.0 && r.value.exchangeRate == 0.2
  {
    Round2Cents(2000);
  }

  // ------------------------------------------------------------- summary

  function ScaleCategories(cs: seq<CategorySummary>, rate: real): (r: seq<CategorySummary>)
    ensures |r| == |cs|
    ensures forall i | 0 <= i < |cs| ::
      r[i] == cs[i].(amount := Scale(cs[i].amount, rate))
  {
    if cs == [] then [] else [cs[0].(amount := Scale(cs[0].amount, rate))] + ScaleCategories(cs[1..], rate)
  }

  function ScaleGoals(gs: seq<GoalSummary>, rate: real): (r: seq<GoalSummary>)
    ensures |r| == |gs|
    ensures forall i | 0 <= i < |gs| ::
      r[i] == gs[i].(targetAmount := Scale(gs[i].targetAmount, rate), currentAmount := Scale(gs[i].currentAmount, rate))
  {
    if gs == [] then []
    else [gs[0].(targetAmount := Scale(gs[0].targetAmount, rate), currentAmount := Scale(gs[0].currentAmount, rate))]
         + ScaleGoals(gs[1..], rate)
  }

  /**
   * `convertFinancialSummary` as written, applied to the summary the service
   * produced: the default currency returns it untouched; otherwise the real's
   * rate is read as a nullable reference, and the target's (unless it is the
   * dollar) is unboxed, so a missing target throws before the null check.
   */
  function ConvertFinancialSummary(original: Summary, target: string, rates: map<string, real>): Result<Summary, CurrencyError>
  {
    if target == DefaultCurrency then Ok(original)
    else
      var targetRate := RateOf(target, rates);
      if targetRate.None? then Err(NullRate)
      else if DefaultCurrency !in rates then Err(UnsupportedCurrency)
      else if rates[DefaultCurrency] == 0.0 then Err(NonFiniteRate)
      else
        var rate := targetRate.value / rates[DefaultCurrency];
        Ok(Summary(
          Scale(original.currentBalance, rate),
          Scale(original.totalIncome, rate),
          Scale(original.totalExpense, rate),
          Some(ScaleGoals(original.achievedGoals.GetOr([]), rate)),
          Some(ScaleCategories(original.expensesByCategory.GetOr([]), rate)),
          Some(ScaleCategories(original.incomesByCategory.GetOr([]), rate)),
          Some(target)))
  }

  /** The default currency is returned as is, without any rate. */
  lemma DefaultCurrencyUnchanged(original: Summary, rates: map<string, real>)
    ensures ConvertFinancialSummary(original, DefaultCurrency, rates) == Ok(original)
  {
  }

  /**
   * Any other target fails: with the unboxing exception when it is neither
   * the dollar nor in the table, whatever the real's rate; otherwise with the
   * unsupported-currency exception exactly when the real's rate is missing;
   * and with a non-finite rate exactly when that rate is zero.
   */
  lemma SummaryNeedsRealRate(original: Summary, target: string, rates: map<string, real>)
    requires target != DefaultCurrency
    ensures var r := ConvertFinancialSummary(original, target, rates);
      (r == Err(NullRate) <==> target != BaseCurrency && target !in rates)
      && (r == Err(UnsupportedCurrency) <==> RateOf(target, rates).Some? && DefaultCurrency !in rates)
      && (r == Err(NonFiniteRate) <==> RateOf(target, rates).Some? && DefaultCurrency in rates && rates[DefaultCurrency] == 0.0)
  {
  }

  /** `convertFinancialSummary` with the supported-currency check made before the target's rate is unboxed. */
  function ConvertFinancialSummaryChecked(original: Summary, target: string, rates: map<string, real>): Result<Summary, CurrencyError>
  {
    if target != DefaultCurrency && (DefaultCurrency !in rates || RateOf(target, rates).None?) then Err(UnsupportedCurrency)
    else ConvertFinancialSummary(original, target, rates)
  }

  /**
   * The corrected summary conversion reports either missing rate as an
   * unsupported currency, never throws the unboxing exception, and otherwise
   * answers exactly as the conversion as written.
   */
  lemma CheckedSummaryErrors(original: Summary, target: string, rates: map<string, real>)
    ensures var r := ConvertFinancialSummaryChecked(original, target, rates);
      (r == Err(UnsupportedCurrency) <==>
         target != DefaultCurrency && (DefaultCurrency !in rates || (target != BaseCurrency && target !in rates)))
      && r != Err(NullRate)
      && (r != Err(UnsupportedCurrency) ==> r == ConvertFinancialSummary(original, target, rates))
  {
    if target != DefaultCurrency {
      SummaryNeedsRealRate(original, target, rates);
    }
  }

  /**
   * A table holding neither the real nor "XYZ": the summary conversion to
   * "XYZ" throws the unboxing exception, not the unsupported-currency one
   * its null check was written for.
   */
  lemma UnknownTargetUnboxesNull(original: Summary)
    ensures ConvertFinancialSummary(original, "XYZ", map["USD" := 1.0]) == Err(NullRate)
    ensures ConvertFinancialSummaryChecked(original, "XYZ", map["USD" := 1.0]) == Err(UnsupportedCurrency)
  {
    assert "XYZ" != DefaultCurrency && "XYZ" != BaseCurrency && "XYZ" !in map["USD" := 1.0];
  }

  /**
   * A converted summary has the original's shape: the same lists in the
   * same order (a missing list becomes empty), every identifier, name,
   * type, flag and label copied, every amount scaled by the one rate, and
   * the target as its currency.
   */
  lemma ConversionKeepsStructure(original: Summary, target: string, rates: map<string, real>)
    requires target != DefaultCurrency
    ensures var r := ConvertFinancialSummary(original, target, rates);
      r.Ok? ==>
        var rate := RateOf(target, rates).value / rates[DefaultCurrency];
        var s := r.value;
        var goals := original.achievedGoals.GetOr([]);
        var expenses := original.expensesByCategory.GetOr([]);
        var incomes := original.incomesByCategory.GetOr([]);
        s.currency == Some(target)
        && s.currentBalance == Scale(original.currentBalance, rate)
        && s.totalIncome == Scale(original.totalIncome, rate)
        && s.totalExpense == Scale(original.totalExpense, rate)
        && s.achievedGoals.Some? && |s.achievedGoals.value| == |goals|
        && (forall i | 0 <= i < |goals| ::
              var g := s.achievedGoals.value[i];
              g.id == goals[i].id && g.name == goals[i].name && g.description == goals[i].description
              && g.achieved == goals[i].achieved && g.category == goals[i].category
              && g.targetAmount == Scale(goals[i].targetAmount, rate)
              && g.currentAmount == Scale(goals[i].currentAmount, rate))
        && s.expensesByCategory.Some? && |s.expensesByCategory.value| == |expenses|
        && (forall i | 0 <= i < |expenses| ::
              var c := s.expensesByCategory.value[i];
              c.categoryId == expenses[i].categoryId && c.categoryName == expenses[i].categoryName
              && c.categoryType == expenses[i].categoryType && c.amount == Scale(expenses[i].amount, rate))
        && s.incomesByCategory.Some? && |s.incomesByCategory.value| == |incomes|
        && (forall i | 0 <= i < |incomes| ::
              var c := s.incomesByCategory.value[i];
              c.categoryId == incomes[i].categoryId && c.categoryName == incomes[i].categoryName
              && c.categoryType == incomes[i].categoryType && c.amount == Scale(incomes[i].amount, rate))
  {
  }

  /**
   * Each amount is rounded separately, so a converted balance stays within
   * 1.5 cents of converted income minus converted expense.
   */
  lemma ConvertedBalanceNearDifference(original: Summary, target: string, rates: map<string, real>)
    requires original.currentBalance == original.totalIncome - original.totalExpense
    ensures var r := ConvertFinancialSummary(original, target, rates);
      r.Ok? ==> -0.015 <= r.value.currentBalance - (r.value.totalIncome - r.value.totalExpense) <= 0.015
  {
    if target != DefaultCurrency && ConvertFinancialSummary(original, target, rates).Ok? {
      var rate := RateOf(target, rates).value / rates[DefaultCurrency];
      ScaledDifference(original.totalIncome, original.totalExpense, rate);
    }
  }

  /** Scaling a difference and scaling its terms differ by at most three half-cents. */
  lemma ScaledDifference(income: real, expense: real, rate: real)
    ensures -0.015 <= Scale(income - expense, rate) - (Scale(income, rate) - Scale(expense, rate)) <= 0.015
  {
    var i := income * rate;
    var e := expense * rate;
    assert (income - expense) * rate == i - e;
    Round2Error(i - e);
    Round2Error(i);
    Round2Error(e);
  }

  /** `getAvailableCurrencies`: every code of the table, named by itself. */
  function AvailableCurrencies(rates: map<string, real>): (r: map<string, string>)
    ensures r.Keys == rates.Keys
    ensures forall code | code in r :: r[code] == code
  {
    map code | code in rates :: code
  }
}
