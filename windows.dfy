/**
 * Resolution of an optional (start, end) pair into a concrete inclusive
 * window, as the summary, chart, transaction and report code does it: a missing
 * start is day 1 of today's month, a missing end is one month after the
 * start, minus one day.
 */
module Windows {
  import opened Wrappers
  import opened Dates

  datatype Window = Window(start: Date, end: Date)

  function ResolveWindow(start: Option<Date>, end: Option<Date>, today: Date): (w: Window)
    ensures start.Some? ==> w.start == start.value
    ensures start.None? ==> w.start.year == today.year && w.start.month == today.month && w.start.day == 1
    ensures end.Some? ==> w.end == end.value
    ensures end.None? ==> w.end == PrevDay(PlusMonths(w.start, 1)) && !IsBefore(w.end, w.start)
  {
    var s := if start.Some? then start.value else FirstOfMonth(today);
    var e := if end.Some? then end.value else MonthAfter(s);
    MonthAfterNotBefore(s);
    Window(s, e)
  }

  /** The window of the current month: its first day to its last day. */
  function CurrentMonth(today: Date): (w: Window)
    ensures w.start == FirstOfMonth(today) && w.end == LastOfMonth(today)
  {
    MonthAfterFirst(today);
    Window(FirstOfMonth(today), MonthAfter(FirstOfMonth(today)))
  }

  /** The window of the current year: January 1 to December 31. */
  function CurrentYear(today: Date): (w: Window)
    ensures w.start == YMD(today.year, 1, 1) && w.end == YMD(today.year, 12, 31)
  {
    YearAfterFirst(today);
    Window(FirstOfYear(today), PrevDay(PlusYears(FirstOfYear(today), 1)))
  }

  /** With no dates at all the window is the current month, and holds exactly its days. */
  lemma DefaultIsCurrentMonth(today: Date, d: Date)
    ensures ResolveWindow(None, None, today) == CurrentMonth(today)
    ensures InWindow(d, CurrentMonth(today).start, CurrentMonth(today).end) <==> YearMonthOf(d) == YearMonthOf(today)
  {
  }

  /** A window whose end is derived from its start is never empty. */
  lemma DerivedEndNotBeforeStart(start: Option<Date>, today: Date)
    ensures var w := ResolveWindow(start, None, today); !IsBefore(w.end, w.start)
  {
    var s := if start.Some? then start.value else FirstOfMonth(today);
    MonthAfterNotBefore(s);
  }
}
