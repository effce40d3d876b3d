/** The choices the dashboard's sidebar offers for a calendar period: the months, half-years and
    years between the earliest and the latest trade, newest first. */
module PeriodLists {
  import opened Calendar
  import opened Windows

  /** Months counted consecutively: January of year 0 is 0. */
  function MonthIndex(ym: Month): int {
    ym.year * 12 + ym.month - 1
  }

  function MonthOf(t: DateTime): Month {
    YearMonth(t.year, t.month)
  }

  lemma MonthIndexInjective(a: Month, b: Month)
    ensures MonthIndex(a) == MonthIndex(b) <==> a == b
  {
  }

  /** Python's order on instants never puts a later month first. */
  lemma MonthIndexMonotone(a: DateTime, b: DateTime)
    requires LessEq(a, b)
    ensures MonthIndex(MonthOf(a)) <= MonthIndex(MonthOf(b))
  {
  }

  /** `min_date.replace(day=1)` as written: the first of the month, keeping the time of day. */
  function MonthStartAsWritten(t: DateTime): (s: DateTime)
    ensures s.day == 1 && MonthOf(s) == MonthOf(t) && TimeOfDay(s) == TimeOfDay(t)
    ensures LessEq(s, t)
  {
    t.(day := 1)
  }

  /** The first of the month at midnight. */
  function MonthStart(t: DateTime): (s: DateTime)
    ensures s.day == 1 && MonthOf(s) == MonthOf(t) && TimeOfDay(s) == 0
    ensures LessEq(s, t)
  {
    t.(day := 1, hour := 0, minute := 0, second := 0)
  }

  /** The value `cur` holds for month `ym` when the walk starts at `start`: `replace` changes
      only the year and month, so the day and the time of day stay those of `start`. */
  function Anchor(ym: Month, start: DateTime): DateTime
    requires start.day == 1
  {
    start.(year := ym.year, month := ym.month)
  }

  /** One step of the walk: the same day and time in the next month, December rolling over. */
  function NextMonth(cur: DateTime): (n: DateTime)
    requires cur.day == 1
    ensures n.day == 1 && (n.hour, n.minute, n.second) == (cur.hour, cur.minute, cur.second)
    ensures MonthIndex(MonthOf(n)) == MonthIndex(MonthOf(cur)) + 1
  {
    if cur.month == 12 then cur.(year := cur.year + 1, month := 1) else cur.(month := cur.month + 1)
  }

  /** Later months have later anchors. */
  lemma AnchorMonotone(a: Month, b: Month, start: DateTime)
    requires start.day == 1
    requires MonthIndex(a) <= MonthIndex(b)
    ensures LessEq(Anchor(a, start), Anchor(b, start))
  {
  }

  /** Whether the walk from `start` reaches month `ym` before passing `maxDate`. */
  predicate Listed(start: DateTime, maxDate: DateTime, ym: Month)
    requires start.day == 1
  {
    MonthIndex(MonthOf(start)) <= MonthIndex(ym) && LessEq(Anchor(ym, start), maxDate)
  }

  /** Newest first, no month twice. */
  predicate NewestFirst(months: seq<Month>) {
    forall i, j :: 0 <= i < j < |months| ==> MonthIndex(months[j]) < MonthIndex(months[i])
  }

  /** The month list from a given first value of `cur`: walk one month at a time while
      `cur <= maxDate`, then list the months newest first; the current month when the walk lists
      nothing. */
  method MonthWalk(start: DateTime, maxDate: DateTime, now: DateTime) returns (months: seq<Month>)
    requires start.day == 1
    ensures |months| > 0 && NewestFirst(months)
    ensures LessEq(start, maxDate) ==> forall ym :: ym in months <==> Listed(start, maxDate, ym)
    ensures !LessEq(start, maxDate) ==> months == [MonthOf(now)]
  {
    var walked: seq<Month> := [];
    var cur := start;
    while LessEq(cur, maxDate)
      invariant cur.day == 1 && (cur.hour, cur.minute, cur.second) == (start.hour, start.minute, start.second)
      invariant MonthIndex(MonthOf(start)) <= MonthIndex(MonthOf(cur))
      invariant |walked| == MonthIndex(MonthOf(cur)) - MonthIndex(MonthOf(start))
      invariant forall k :: 0 <= k < |walked| ==> MonthIndex(walked[k]) == MonthIndex(MonthOf(start)) + k
      invariant forall ym :: ym in walked ==> LessEq(Anchor(ym, start), maxDate)
      invariant forall ym: Month :: ym in walked <==> MonthIndex(MonthOf(start)) <= MonthIndex(ym) < MonthIndex(MonthOf(cur))
      decreases MonthIndex(MonthOf(maxDate)) - MonthIndex(MonthOf(cur))
    {
      MonthIndexMonotone(cur, maxDate);
      assert Anchor(MonthOf(cur), start) == cur;
      forall ym: Month
        ensures MonthIndex(ym) == MonthIndex(MonthOf(cur)) <==> ym == MonthOf(cur)
      {
        MonthIndexInjective(ym, MonthOf(cur));
      }
      walked := walked + [MonthOf(cur)];
      cur := NextMonth(cur);
    }
    if LessEq(start, maxDate) {
      forall ym: Month | Listed(start, maxDate, ym)
        ensures MonthIndex(ym) < MonthIndex(MonthOf(cur))
      {
        if MonthIndex(MonthOf(cur)) <= MonthIndex(ym) {
          assert Anchor(MonthOf(cur), start) == cur;
          AnchorMonotone(MonthOf(cur), ym, start);
          NotLessEq(cur, maxDate);
          NotLessEq(Anchor(ym, start), maxDate);
          LessEqTransitive(maxDate, cur, Anchor(ym, start));
          assert false;
        }
      }
    }
    months := Reverse(walked);
    assert forall ym :: ym in months <==> ym in walked by {
      forall ym ensures ym in months <==> ym in walked {
        if ym in walked {
          var k :| 0 <= k < |walked| && walked[k] == ym;
          assert months[|walked| - 1 - k] == ym;
        }
      }
    }
    if months == [] {
      months := [MonthOf(now)];
    }
  }

  function Reverse<T>(s: seq<T>): (r: seq<T>)
    ensures |r| == |s| && forall k :: 0 <= k < |s| ==> r[k] == s[|s| - 1 - k]
    decreases |s|
  {
    if s == [] then [] else Reverse(s[1..]) + [s[0]]
  }

  /** Starting the walk at midnight on the first of `minDate`'s month lists exactly the months
      from `minDate`'s to `maxDate`'s. */
  lemma MonthStartListsEveryMonth(minDate: DateTime, maxDate: DateTime, ym: Month)
    requires LessEq(minDate, maxDate)
    ensures LessEq(MonthStart(minDate), maxDate)
    ensures Listed(MonthStart(minDate), maxDate, ym)
        <==> MonthIndex(MonthOf(minDate)) <= MonthIndex(ym) <= MonthIndex(MonthOf(maxDate))
  {
    LessEqTransitive(MonthStart(minDate), minDate, maxDate);
    MonthIndexMonotone(minDate, maxDate);
    if MonthIndex(ym) <= MonthIndex(MonthOf(maxDate)) {
      AnchorMonotone(ym, MonthOf(maxDate), MonthStart(minDate));
      LessEqTransitive(Anchor(ym, MonthStart(minDate)), Anchor(MonthOf(maxDate), MonthStart(minDate)), maxDate);
    } else if LessEq(Anchor(ym, MonthStart(minDate)), maxDate) {
      MonthIndexMonotone(Anchor(ym, MonthStart(minDate)), maxDate);
    }
  }

  /** The month choices, with the walk started at midnight on the first of `minDate`'s month:
      every month from the earliest trade's to the latest trade's, newest first. */
  method MonthOptions(minDate: DateTime, maxDate: DateTime, now: DateTime) returns (months: seq<Month>)
    ensures |months| > 0 && NewestFirst(months)
    ensures LessEq(minDate, maxDate) ==>
      forall ym :: ym in months <==> MonthIndex(MonthOf(minDate)) <= MonthIndex(ym) <= MonthIndex(MonthOf(maxDate))
  {
    months := MonthWalk(MonthStart(minDate), maxDate, now);
    if LessEq(minDate, maxDate) {
      forall ym: Month
        ensures ym in months <==> MonthIndex(MonthOf(minDate)) <= MonthIndex(ym) <= MonthIndex(MonthOf(maxDate))
      {
        MonthStartListsEveryMonth(minDate, maxDate, ym);
      }
    }
  }

  /** Starting the walk at `min_date.replace(day=1)` misses `maxDate`'s month exactly when
      `maxDate` falls on the first of a month at an earlier time of day than `minDate`. */
  lemma AsWrittenListsLastMonthIff(minDate: DateTime, maxDate: DateTime)
    requires LessEq(minDate, maxDate)
    ensures LessEq(MonthStartAsWritten(minDate), maxDate)
    ensures Listed(MonthStartAsWritten(minDate), maxDate, MonthOf(maxDate))
        <==> maxDate.day > 1 || TimeOfDay(minDate) <= TimeOfDay(maxDate)
  {
    LessEqTransitive(MonthStartAsWritten(minDate), minDate, maxDate);
    MonthIndexMonotone(minDate, maxDate);
  }

  /** Trades from 2024-01-15 10:00:00 to 2024-03-01 09:00:00: the walk as written lists January
      and February but not March, the month of the latest trade. */
  lemma AsWrittenMissesMarch()
    ensures var minDate := Civil(2024, 1, 15, 10, 0, 0);
      var maxDate := Civil(2024, 3, 1, 9, 0, 0);
      && minDate.Valid() && maxDate.Valid() && LessEq(minDate, maxDate)
      && Listed(MonthStartAsWritten(minDate), maxDate, YearMonth(2024, 1))
      && Listed(MonthStartAsWritten(minDate), maxDate, YearMonth(2024, 2))
      && !Listed(MonthStartAsWritten(minDate), maxDate, MonthOf(maxDate))
  {
    AsWrittenListsLastMonthIff(Civil(2024, 1, 15, 10, 0, 0), Civil(2024, 3, 1, 9, 0, 0));
  }

  /** A half-year choice "2024 상반기" / "2024 하반기". */
  datatype HalfYear = HalfYear(year: int, half: Half)

  /** Half-years counted consecutively. */
  function HalfIndex(h: HalfYear): int {
    2 * h.year + (if h.half == FirstHalf then 0 else 1)
  }

  /** The half-year list: both halves of every year from `minYear` to `maxYear`, newest first
      (the second half of a year before its first half). */
  method HalfOptions(minYear: int, maxYear: int) returns (halves: seq<HalfYear>)
    ensures |halves| == if minYear <= maxYear then 2 * (maxYear - minYear + 1) else 0
    ensures forall i, j :: 0 <= i < j < |halves| ==> HalfIndex(halves[j]) < HalfIndex(halves[i])
    ensures forall h :: h in halves <==> minYear <= h.year <= maxYear
  {
    var built: seq<HalfYear> := [];
    var y := minYear;
    while y <= maxYear
      invariant minYear <= maxYear + 1 ==> minYear <= y <= maxYear + 1
      invariant minYear > maxYear ==> y == minYear
      invariant |built| == 2 * (y - minYear)
      invariant forall k :: 0 <= k < |built| ==> HalfIndex(built[k]) == 2 * minYear + k
      invariant forall h :: h in built <==> minYear <= h.year < y
      decreases maxYear - y
    {
      var pair := [HalfYear(y, FirstHalf), HalfYear(y, SecondHalf)];
      forall h: HalfYear | h.year == y
        ensures h in pair
      {
        if h.half == FirstHalf {
          assert h == pair[0];
        } else {
          assert h == pair[1];
        }
      }
      built := built + pair;
      y := y + 1;
    }
    halves := Reverse(built);
    assert forall h :: h in halves <==> h in built by {
      forall h ensures h in halves <==> h in built {
        if h in built {
          var k :| 0 <= k < |built| && built[k] == h;
          assert halves[|built| - 1 - k] == h;
        }
      }
    }
  }

  /** The year list: every year from `minYear` to `maxYear`, newest first. */
  function YearOptions(minYear: int, maxYear: int): (years: seq<int>)
    ensures |years| == if minYear <= maxYear then maxYear - minYear + 1 else 0
    ensures forall i, j :: 0 <= i < j < |years| ==> years[j] < years[i]
    ensures forall y :: y in years <==> minYear <= y <= maxYear
    decreases maxYear - minYear
  {
    if minYear > maxYear then []
    else
      var rest := YearOptions(minYear, maxYear - 1);
      assert forall j :: 0 <= j < |rest| ==> rest[j] in rest;
      [maxYear] + rest
  }

  /** The earliest and the latest of the parsed trade times, or `now` for both when there are
      none. */
  function DateRange(dates: seq<DateTime>, now: DateTime): (r: (DateTime, DateTime))
    ensures LessEq(r.0, r.1)
    ensures dates == [] ==> r == (now, now)
    ensures dates != [] ==> r.0 in dates && r.1 in dates
    ensures forall k :: 0 <= k < |dates| ==> LessEq(r.0, dates[k]) && LessEq(dates[k], r.1)
  {
    if dates == [] then (now, now)
    else
      var lo := Earliest(dates);
      var hi := Latest(dates);
      LessEqTransitive(lo, dates[0], hi);
      (lo, hi)
  }

  function Earliest(dates: seq<DateTime>): (m: DateTime)
    requires dates != []
    ensures m in dates && forall k :: 0 <= k < |dates| ==> LessEq(m, dates[k])
    decreases |dates|
  {
    if |dates| == 1 then dates[0]
    else
      var rest := Earliest(dates[1..]);
      NotLessEq(dates[0], rest);
      if LessEq(dates[0], rest) then
        assert forall k :: 1 <= k < |dates| ==> LessEq(rest, dates[k]) by {
          assert forall k :: 1 <= k < |dates| ==> dates[k] == dates[1..][k - 1];
        }
        forall k | 1 <= k < |dates| ensures LessEq(dates[0], dates[k]) {
          LessEqTransitive(dates[0], rest, dates[k]);
        }
        dates[0]
      else
        assert forall k :: 1 <= k < |dates| ==> dates[k] == dates[1..][k - 1];
        rest
  }

  function Latest(dates: seq<DateTime>): (m: DateTime)
    requires dates != []
    ensures m in dates && forall k :: 0 <= k < |dates| ==> LessEq(dates[k], m)
    decreases |dates|
  {
    if |dates| == 1 then dates[0]
    else
      var rest := Latest(dates[1..]);
      NotLessEq(dates[0], rest);
      if LessEq(rest, dates[0]) then
        assert forall k :: 1 <= k < |dates| ==> LessEq(dates[k], rest) by {
          assert forall k :: 1 <= k < |dates| ==> dates[k] == dates[1..][k - 1];
        }
        forall k | 1 <= k < |dates| ensures LessEq(dates[k], dates[0]) {
          LessEqTransitive(dates[k], rest, dates[0]);
        }
        dates[0]
      else
        assert forall k :: 1 <= k < |dates| ==> dates[k] == dates[1..][k - 1];
        rest
  }
}
