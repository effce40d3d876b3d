/** The time windows of dashboard.py: a trailing window of the last 1, 30, 180 or 365 days, or
    an inclusive calendar window (one day, one month, one half-year, one year) picked from the
    sidebar. */
module Windows {
  import opened Options
  import opened Calendar

  /** How `recalculate` decides whether a trade time is in range: `start <= t <= end` for a
      chosen calendar period, `t >= cutoff` for a trailing window. */
  datatype Filter = Between(start: DateTime, end: DateTime) | Since(cutoff: DateTime)

  predicate Includes(f: Filter, t: DateTime)
    ensures f.Since? ==> (Includes(f, t) <==> !Before(t, f.cutoff))
    ensures f.Between? && Includes(f, t) ==> LessEq(f.start, f.end)
  {
    match f
    case Between(start, end) =>
      if LessEq(start, t) && LessEq(t, end) then LessEqTransitive(start, t, end); true else false
    case Since(cutoff) =>
      NotLessEq(cutoff, t);
      LessEq(cutoff, t)
  }

  /** The period radio button. `Everything` ("전체") leaves every row as stored. */
  datatype Period = Everything | OneDay | OneMonth | SixMonths | OneYear

  /** Days covered by the trailing window of a period. */
  function TrailingDays(p: Period): nat
    requires p != Everything
  {
    match p
    case OneDay => 1
    case OneMonth => 30
    case SixMonths => 180
    case OneYear => 365
  }

  /** Every window is an interval: an instant between two included instants is included. */
  lemma IncludesBetween(f: Filter, a: DateTime, b: DateTime, t: DateTime)
    requires Includes(f, a) && Includes(f, b) && LessEq(a, t) && LessEq(t, b)
    ensures Includes(f, t)
  {
    match f
    case Between(start, end) =>
      LessEqTransitive(start, a, t);
      LessEqTransitive(t, b, end);
    case Since(cutoff) =>
      LessEqTransitive(cutoff, a, t);
  }

  /** The trailing window `t >= now - timedelta(days=d)`, and none for `Everything`. */
  function TrailingFilter(p: Period, now: DateTime): (f: Option<Filter>)
    ensures f.None? <==> p == Everything
    ensures f.Some? ==> f.value.Since?
  {
    if p == Everything then None else Some(Since(MinusDays(now, TrailingDays(p))))
  }

  /** The trailing window holds exactly the instants at most `d` whole days before `now`
      (and any later instant). */
  lemma TrailingFilterIncludes(p: Period, now: DateTime, t: DateTime)
    requires p != Everything
    ensures Includes(TrailingFilter(p, now).value, t)
        <==> Seconds(t) >= Seconds(now) - TrailingDays(p) * SecondsPerDay
  {
    MinusDaysSeconds(now, TrailingDays(p));
    LessEqIffSeconds(MinusDays(now, TrailingDays(p)), t);
  }

  /** The one-day window of the chosen date: from midnight to the last second of the day. */
  function DayWindow(d: DateTime): (f: Filter)
    ensures f.Between? && LessEq(f.start, f.end)
    ensures (f.start.year, f.start.month, f.start.day) == (d.year, d.month, d.day) && TimeOfDay(f.start) == 0
    ensures (f.end.year, f.end.month, f.end.day) == (d.year, d.month, d.day) && TimeOfDay(f.end) == SecondsPerDay - 1
  {
    Between(d.(hour := 0, minute := 0, second := 0), d.(hour := 23, minute := 59, second := 59))
  }

  lemma DayWindowIsTheDate(d: DateTime, t: DateTime)
    ensures Includes(DayWindow(d), t) <==> t.year == d.year && t.month == d.month && t.day == d.day
    ensures LessEq(DayWindow(d).start, DayWindow(d).end)
  {
  }

  /** A month as the sidebar offers it ("%Y-%m"). */
  datatype YearMonth = YearMonth(year: int, month: int)

  type Month = ym: YearMonth | 1 <= ym.month <= 12 witness YearMonth(1970, 1)

  /** The first of the month after `ym`, with December rolling over to January of the next
      year. */
  function FirstOfNextMonth(ym: Month): DateTime {
    if ym.month == 12 then Civil(ym.year + 1, 1, 1, 0, 0, 0)
    else Civil(ym.year, ym.month + 1, 1, 0, 0, 0)
  }

  /** From the first of the month at midnight to one second before the first of the next
      month. */
  function MonthWindow(ym: Month): (f: Filter)
    ensures f.Between? && f.start == Civil(ym.year, ym.month, 1, 0, 0, 0)
    ensures f.end == Civil(ym.year, ym.month, DaysInMonth(ym.year, ym.month), 23, 59, 59)
  {
    Between(Civil(ym.year, ym.month, 1, 0, 0, 0), MinusOneSecond(FirstOfNextMonth(ym)))
  }

  /** The month window ends at 23:59:59 on the month's last day, starts no later than it ends,
      and holds exactly the instants of that month. */
  lemma MonthWindowIsTheMonth(ym: Month, t: DateTime)
    ensures MonthWindow(ym).end == Civil(ym.year, ym.month, DaysInMonth(ym.year, ym.month), 23, 59, 59)
    ensures LessEq(MonthWindow(ym).start, MonthWindow(ym).end)
    ensures Includes(MonthWindow(ym), t) <==> t.year == ym.year && t.month == ym.month
  {
  }

  datatype Half = FirstHalf | SecondHalf

  /** "상반기" is January to June, "하반기" July to December. */
  function HalfWindow(year: int, h: Half): (f: Filter)
    ensures f.Between? && LessEq(f.start, f.end) && f.start.year == f.end.year == year
    ensures TimeOfDay(f.start) == 0 && TimeOfDay(f.end) == SecondsPerDay - 1
  {
    if h == FirstHalf then Between(Civil(year, 1, 1, 0, 0, 0), Civil(year, 6, 30, 23, 59, 59))
    else Between(Civil(year, 7, 1, 0, 0, 0), Civil(year, 12, 31, 23, 59, 59))
  }

  lemma HalfWindowIsTheHalf(year: int, h: Half, t: DateTime)
    ensures LessEq(HalfWindow(year, h).start, HalfWindow(year, h).end)
    ensures Includes(HalfWindow(year, h), t) <==> t.year == year && (t.month <= 6 <==> h == FirstHalf)
  {
  }

  function YearWindow(year: int): (f: Filter)
    ensures f.Between? && LessEq(f.start, f.end) && f.start.year == f.end.year == year
    ensures TimeOfDay(f.start) == 0 && TimeOfDay(f.end) == SecondsPerDay - 1
  {
    Between(Civil(year, 1, 1, 0, 0, 0), Civil(year, 12, 31, 23, 59, 59))
  }

  lemma YearWindowIsTheYear(year: int, t: DateTime)
    ensures LessEq(YearWindow(year).start, YearWindow(year).end)
    ensures Includes(YearWindow(year), t) <==> t.year == year
  {
  }

  /** The two halves of a year together cover exactly that year. */
  lemma HalvesCoverTheYear(year: int, t: DateTime)
    ensures Includes(YearWindow(year), t)
        <==> Includes(HalfWindow(year, FirstHalf), t) || Includes(HalfWindow(year, SecondHalf), t)
  {
    YearWindowIsTheYear(year, t);
    HalfWindowIsTheHalf(year, FirstHalf, t);
    HalfWindowIsTheHalf(year, SecondHalf, t);
  }
}
