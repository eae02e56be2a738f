/**
 * FinancialReportController: which window each report endpoint covers and
 * the name of the PDF it returns. The PDF itself comes from a report
 * generator outside this model, given as a function that yields the bytes
 * or `None` when generation fails.
 */
module Reports {
  import opened Wrappers
  import opened Dates
  import opened Windows

  // ------------------------------------------------------------- digits

  function Pow10(k: nat): nat {
    if k == 0 then 1 else 10 * Pow10(k - 1)
  }

  function DigitChar(d: int): char
    requires 0 <= d <= 9
  {
    ('0' as int + d) as char
  }

  predicate IsDigit(c: char) {
    '0' <= c <= '9'
  }

  function DigitValue(c: char): int {
    c as int - '0' as int
  }

  /** `n` in decimal, without leading zeros ("0" for zero). */
  function Decimal(n: nat): (s: string)
    ensures |s| >= 1
    ensures forall i | 0 <= i < |s| :: IsDigit(s[i])
  {
    if n < 10 then [DigitChar(n)] else Decimal(n / 10) + [DigitChar(n % 10)]
  }

  function Zeros(k: nat): (s: string)
    ensures |s| == k
    ensures forall i | 0 <= i < k :: s[i] == '0'
  {
    if k == 0 then [] else Zeros(k - 1) + ['0']
  }

  /** `n` in decimal, left-padded with zeros to at least `width` characters. */
  function Padded(n: nat, width: nat): (s: string)
    ensures |s| >= width
    ensures forall i | 0 <= i < |s| :: IsDigit(s[i])
  {
    var d := Decimal(n);
    if |d| >= width then d else Zeros(width - |d|) + d
  }

  /** The number a string of decimal digits denotes. */
  function ParseDecimal(s: string): int {
    if s == [] then 0 else ParseDecimal(s[..|s| - 1]) * 10 + DigitValue(s[|s| - 1])
  }

  // ----------------------------------------------------------- patterns

  /**
   * Pattern `yyyy`: the year of era, at least four digits, with a leading
   * '+' once it needs more than four.
   */
  function YearText(year: int): string {
    var yoe := if year >= 1 then year else 1 - year;
    if yoe > 9999 then "+" + Decimal(yoe) else Padded(yoe, 4)
  }

  /** Pattern `yyyyMM`. */
  function YearMonthStamp(d: Date): string {
    YearText(d.year) + Padded(d.month, 2)
  }

  /** Pattern `yyyyMMdd`. */
  function DateStamp(d: Date): string {
    YearText(d.year) + Padded(d.month, 2) + Padded(d.day, 2)
  }

  function CustomFileName(w: Window): string {
    "relatorio_financeiro_" + DateStamp(w.start) + "_" + DateStamp(w.end) + ".pdf"
  }

  function MonthlyFileName(start: Date): string {
    "relatorio_financeiro_mensal_" + YearMonthStamp(start) + ".pdf"
  }

  function AnnualFileName(start: Date): string {
    "relatorio_financeiro_anual_" + YearText(start.year) + ".pdf"
  }

  // ---------------------------------------------------------- endpoints

  /** A PDF download with its file name, or status 500 with no body. */
  datatype ReportResponse = Pdf(body: seq<bv8>, fileName: string) | InternalServerError

  function Respond(w: Window, fileName: string, generate: (Date, Date) -> Option<seq<bv8>>): ReportResponse {
    match generate(w.start, w.end)
    case Some(body) => Pdf(body, fileName)
    case None => InternalServerError
  }

  /** GET /financial: the given dates with the current-month defaults. */
  function GenerateFinancialReport(start: Option<Date>, end: Option<Date>, today: Date,
                                   generate: (Date, Date) -> Option<seq<bv8>>): ReportResponse {
    var w := ResolveWindow(start, end, today);
    Respond(w, CustomFileName(w), generate)
  }

  /** POST /financial: "monthly" and "annual" ignore the given dates; any other type is a custom window. */
  function GenerateFinancialReportWithBody(reportType: Option<string>, start: Option<Date>, end: Option<Date>, today: Date,
                                           generate: (Date, Date) -> Option<seq<bv8>>): ReportResponse {
    if reportType == Some("monthly") then
      var w := CurrentMonth(today);
      Respond(w, MonthlyFileName(w.start), generate)
    else if reportType == Some("annual") then
      var w := CurrentYear(today);
      Respond(w, AnnualFileName(w.start), generate)
    else
      var w := ResolveWindow(start, end, today);
      Respond(w, CustomFileName(w), generate)
  }

  /** GET /financial/monthly. */
  function GenerateMonthlyFinancialReport(today: Date, generate: (Date, Date) -> Option<seq<bv8>>): ReportResponse {
    var w := CurrentMonth(today);
    Respond(w, MonthlyFileName(w.start), generate)
  }

  /** GET /financial/annual. */
  function GenerateAnnualFinancialReport(today: Date, generate: (Date, Date) -> Option<seq<bv8>>): ReportResponse {
    var w := CurrentYear(today);
    Respond(w, AnnualFileName(w.start), generate)
  }

  // ---------------------------------------------------- digit lemmas

  lemma DigitRoundTrip(d: int)
    requires 0 <= d <= 9
    ensures DigitValue(DigitChar(d)) == d
  {
  }

  lemma {:induction false} DecimalValue(n: nat)
    ensures ParseDecimal(Decimal(n)) == n
  {
    if n >= 10 {
      DecimalValue(n / 10);
      var s := Decimal(n);
      assert s[..|s| - 1] == Decimal(n / 10);
    }
  }

  lemma {:induction false} DecimalLength(n: nat, w: nat)
    requires w >= 1 && n < Pow10(w)
    ensures |Decimal(n)| <= w
  {
    if n >= 10 {
      assert n / 10 < Pow10(w - 1);
      DecimalLength(n / 10, w - 1);
    }
  }

  lemma {:induction false} ParseAppend(a: string, b: string)
    ensures ParseDecimal(a + b) == ParseDecimal(a) * Pow10(|b|) + ParseDecimal(b)
  {
    if b == [] {
      assert a + b == a;
    } else {
      var c := b[|b| - 1];
      assert (a + b)[..|a + b| - 1] == a + b[..|b| - 1];
      ParseAppend(a, b[..|b| - 1]);
    }
  }

  lemma {:induction false} ZerosValue(k: nat)
    ensures ParseDecimal(Zeros(k)) == 0
  {
    if k > 0 {
      ZerosValue(k - 1);
      assert Zeros(k)[..k - 1] == Zeros(k - 1);
    }
  }

  /** Leading zeros do not change the number. */
  lemma LeadingZeros(k: nat, d: string)
    ensures ParseDecimal(Zeros(k) + d) == ParseDecimal(d)
  {
    ParseAppend(Zeros(k), d);
    ZerosValue(k);
  }

  /** A number below 10^width is written in exactly `width` digits, and reads back as itself. */
  lemma PaddedExact(n: nat, width: nat)
    requires width >= 1 && n < Pow10(width)
    ensures |Padded(n, width)| == width
    ensures ParseDecimal(Padded(n, width)) == n
  {
    DecimalLength(n, width);
    DecimalValue(n);
    LeadingZeros(width - |Decimal(n)|, Decimal(n));
  }

  // ----------------------------------------------------- name lemmas

  /**
   * For years 1 to 9999 a `yyyyMMdd` stamp has eight digits and denotes
   * year * 10000 + month * 100 + day.
   */
  lemma DateStampValue(d: Date)
    requires 1 <= d.year <= 9999
    ensures |DateStamp(d)| == 8
    ensures ParseDecimal(DateStamp(d)) == d.year * 10000 + d.month * 100 + d.day
  {
    PaddedExact(d.year, 4);
    PaddedExact(d.month, 2);
    PaddedExact(d.day, 2);
    ParseAppend(YearText(d.year), Padded(d.month, 2));
    ParseAppend(YearText(d.year) + Padded(d.month, 2), Padded(d.day, 2));
  }

  /** Stamps order as their dates do: a date is earlier exactly when its stamp's number is smaller. */
  lemma DateStampOrder(a: Date, b: Date)
    requires 1 <= a.year <= 9999 && 1 <= b.year <= 9999
    ensures IsBefore(a, b) <==> ParseDecimal(DateStamp(a)) < ParseDecimal(DateStamp(b))
    ensures DateStamp(a) == DateStamp(b) <==> a == b
  {
    DateStampValue(a);
    DateStampValue(b);
  }

  /** The two stamps of a custom name sit at fixed places once each is eight characters long. */
  lemma StampsAt(prefix: string, a: string, sep: string, b: string, suffix: string)
    requires |prefix| == 21 && |a| == 8 && |sep| == 1 && |b| == 8
    ensures (prefix + a + sep + b + suffix)[21..29] == a
    ensures (prefix + a + sep + b + suffix)[30..38] == b
  {
    var n := prefix + a + sep + b + suffix;
    assert forall i | 0 <= i < 8 :: n[21 + i] == a[i];
    assert forall i | 0 <= i < 8 :: n[30 + i] == b[i];
  }

  /** A custom report's name determines its window (years 1 to 9999). */
  lemma CustomNameDeterminesWindow(w1: Window, w2: Window)
    requires 1 <= w1.start.year <= 9999 && 1 <= w1.end.year <= 9999
    requires 1 <= w2.start.year <= 9999 && 1 <= w2.end.year <= 9999
    requires CustomFileName(w1) == CustomFileName(w2)
    ensures w1 == w2
  {
    DateStampValue(w1.start);
    DateStampValue(w1.end);
    DateStampValue(w2.start);
    DateStampValue(w2.end);
    StampsAt("relatorio_financeiro_", DateStamp(w1.start), "_", DateStamp(w1.end), ".pdf");
    StampsAt("relatorio_financeiro_", DateStamp(w2.start), "_", DateStamp(w2.end), ".pdf");
    DateStampOrder(w1.start, w2.start);
    DateStampOrder(w1.end, w2.end);
  }

  /** A monthly report's `yyyyMM` part denotes year * 100 + month of the current month. */
  lemma MonthlyNameStamp(today: Date)
    requires 1 <= today.year <= 9999
    ensures var n := MonthlyFileName(CurrentMonth(today).start);
      && |n| == 28 + 6 + 4
      && ParseDecimal(n[28..34]) == today.year * 100 + today.month
  {
    var start := CurrentMonth(today).start;
    PaddedExact(start.year, 4);
    PaddedExact(start.month, 2);
    ParseAppend(YearText(start.year), Padded(start.month, 2));
    assert MonthlyFileName(start)[28..34] == YearMonthStamp(start);
  }

  // ------------------------------------------------- endpoint lemmas

  /** POST "monthly" and "annual" answer exactly as the dedicated GET endpoints do, whatever dates are sent. */
  lemma FixedReportTypesIgnoreDates(start: Option<Date>, end: Option<Date>, today: Date,
                                    generate: (Date, Date) -> Option<seq<bv8>>)
    ensures GenerateFinancialReportWithBody(Some("monthly"), start, end, today, generate)
         == GenerateMonthlyFinancialReport(today, generate)
    ensures GenerateFinancialReportWithBody(Some("annual"), start, end, today, generate)
         == GenerateAnnualFinancialReport(today, generate)
  {
  }

  /** Any other report type (or none) is the GET endpoint with the same dates. */
  lemma CustomPostIsGet(reportType: Option<string>, start: Option<Date>, end: Option<Date>, today: Date,
                        generate: (Date, Date) -> Option<seq<bv8>>)
    requires reportType != Some("monthly") && reportType != Some("annual")
    ensures GenerateFinancialReportWithBody(reportType, start, end, today, generate)
         == GenerateFinancialReport(start, end, today, generate)
  {
  }

  /**
   * Each endpoint answers 500 with no body exactly when generation over its
   * window fails, and otherwise the generated bytes under its file name;
   * the windows are the current month and the current calendar year.
   */
  lemma ReportOutcome(start: Option<Date>, end: Option<Date>, today: Date, generate: (Date, Date) -> Option<seq<bv8>>)
    ensures var w := ResolveWindow(start, end, today);
      var r := GenerateFinancialReport(start, end, today, generate);
      && (r.InternalServerError? <==> generate(w.start, w.end).None?)
      && (r.Pdf? ==> r.body == generate(w.start, w.end).value && r.fileName == CustomFileName(w))
    ensures var r := GenerateMonthlyFinancialReport(today, generate);
      var s := FirstOfMonth(today);
      && (r.InternalServerError? <==> generate(s, LastOfMonth(today)).None?)
      && (r.Pdf? ==> r.body == generate(s, LastOfMonth(today)).value && r.fileName == MonthlyFileName(s))
    ensures var r := GenerateAnnualFinancialReport(today, generate);
      var s := YMD(today.year, 1, 1);
      && (r.InternalServerError? <==> generate(s, YMD(today.year, 12, 31)).None?)
      && (r.Pdf? ==> r.body == generate(s, YMD(today.year, 12, 31)).value && r.fileName == AnnualFileName(s))
  {
  }
}
