/** Python's naive `datetime`, to whole seconds: a civil date and a time of day in the proleptic
    Gregorian calendar. Python compares two naive datetimes field by field (year first); the
    lemmas below show that this order is the order of the instants' second counts, which is how
    `datetime - timedelta` is defined. */
module Calendar {

  datatype Civil = Civil(year: int, month: int, day: int, hour: int, minute: int, second: int)
  {
    /** The fields a Python `datetime` constructor accepts (the year range is not bounded here). */
    predicate Valid() {
      && 1 <= month <= 12
      && 1 <= day <= DaysInMonth(year, month)
      && 0 <= hour < 24 && 0 <= minute < 60 && 0 <= second < 60
    }
  }

  /** A timestamp that Python could have built: every field in range. */
  type DateTime = c: Civil | c.Valid() witness Civil(1970, 1, 1, 0, 0, 0)

  const SecondsPerDay: int := 86400

  predicate IsLeap(y: int) {
    y % 4 == 0 && (y % 100 != 0 || y % 400 == 0)
  }

  function DaysInYear(y: int): int {
    if IsLeap(y) then 366 else 365
  }

  function DaysInMonth(y: int, m: int): int
    requires 1 <= m <= 12
  {
    if m == 2 then (if IsLeap(y) then 29 else 28)
    else if m == 4 || m == 6 || m == 9 || m == 11 then 30
    else 31
  }

  /** Days of year `y` that lie before the first of month `m`. */
  function DaysBeforeMonth(y: int, m: int): int
    requires 1 <= m <= 12
  {
    [0, 31, 59, 90, 120, 151, 181, 212, 243, 273, 304, 334][m - 1]
      + (if m > 2 && IsLeap(y) then 1 else 0)
  }

  /** Days before January 1st of year `y`, counted from January 1st of year 1 (floor division,
      so the count extends to earlier years as well). */
  function DaysBeforeYear(y: int): int {
    var z := y - 1;
    365 * z + z / 4 - z / 100 + z / 400
  }

  /** The day number of a date: consecutive dates have consecutive numbers. */
  function DayNumber(t: DateTime): int {
    DaysBeforeYear(t.year) + DaysBeforeMonth(t.year, t.month) + t.day
  }

  function TimeOfDay(t: DateTime): int {
    t.hour * 3600 + t.minute * 60 + t.second
  }

  /** The instant as a count of seconds. */
  function Seconds(t: DateTime): int {
    DayNumber(t) * SecondsPerDay + TimeOfDay(t)
  }

  /** Python's `a < b` on naive datetimes: field by field, year first. */
  predicate Before(a: DateTime, b: DateTime)
    ensures Before(a, b) ==> a != b && a.year <= b.year
    ensures a.year < b.year ==> Before(a, b)
  {
    || a.year < b.year
    || (a.year == b.year && a.month < b.month)
    || (a.year == b.year && a.month == b.month && a.day < b.day)
    || (a.year == b.year && a.month == b.month && a.day == b.day && a.hour < b.hour)
    || (a.year == b.year && a.month == b.month && a.day == b.day && a.hour == b.hour
        && a.minute < b.minute)
    || (a.year == b.year && a.month == b.month && a.day == b.day && a.hour == b.hour
        && a.minute == b.minute && a.second < b.second)
  }

  /** Python's `a <= b` on naive datetimes. */
  predicate LessEq(a: DateTime, b: DateTime)
    ensures a == b ==> LessEq(a, b)
    ensures LessEq(a, b) ==> a.year <= b.year
  {
    a == b || Before(a, b)
  }

  /** The same time of day on the previous calendar date. */
  function PrevDay(t: DateTime): DateTime {
    if t.day > 1 then t.(day := t.day - 1)
    else if t.month > 1 then t.(month := t.month - 1, day := DaysInMonth(t.year, t.month - 1))
    else t.(year := t.year - 1, month := 12, day := 31)
  }

  /** `t - timedelta(seconds=1)`. */
  function MinusOneSecond(t: DateTime): (r: DateTime)
    ensures TimeOfDay(t) > 0 ==>
      (r.year, r.month, r.day) == (t.year, t.month, t.day) && TimeOfDay(r) == TimeOfDay(t) - 1
    ensures TimeOfDay(t) == 0 ==>
      (r.year, r.month, r.day) == (PrevDay(t).year, PrevDay(t).month, PrevDay(t).day)
      && TimeOfDay(r) == SecondsPerDay - 1
  {
    if t.second > 0 then t.(second := t.second - 1)
    else if t.minute > 0 then t.(minute := t.minute - 1, second := 59)
    else if t.hour > 0 then t.(hour := t.hour - 1, minute := 59, second := 59)
    else PrevDay(t).(hour := 23, minute := 59, second := 59)
  }

  /** `t - timedelta(days=n)`. */
  function MinusDays(t: DateTime, n: nat): (r: DateTime)
    ensures TimeOfDay(r) == TimeOfDay(t)
    ensures n > 0 ==> Before(r, t)
    decreases n
  {
    if n == 0 then t else MinusDays(PrevDay(t), n - 1)
  }

  // ---------------------------------------------------------------------------------------
  // Calendar arithmetic

  /** Stepping a number by one moves its quotient by `d` exactly when it reaches a multiple of `d`. */
  lemma QuotientStep(z: int, d: int)
    requires d == 4 || d == 100 || d == 400
    ensures (z + 1) / d == z / d + (if (z + 1) % d == 0 then 1 else 0)
  {
    assert z == d * (z / d) + z % d;
    assert z + 1 == d * ((z + 1) / d) + (z + 1) % d;
  }

  lemma YearStep(y: int)
    ensures DaysBeforeYear(y + 1) == DaysBeforeYear(y) + DaysInYear(y)
  {
    QuotientStep(y - 1, 4);
    QuotientStep(y - 1, 100);
    QuotientStep(y - 1, 400);
  }

  lemma MonthStep(y: int, m: int)
    requires 1 <= m <= 12
    ensures m < 12 ==> DaysBeforeMonth(y, m + 1) == DaysBeforeMonth(y, m) + DaysInMonth(y, m)
    ensures m == 12 ==> DaysBeforeMonth(y, m) + DaysInMonth(y, m) == DaysInYear(y)
  {
  }

  lemma MonthsBeforeMonotone(y: int, m: int, m': int)
    requires 1 <= m < m' <= 12
    ensures DaysBeforeMonth(y, m) + DaysInMonth(y, m) <= DaysBeforeMonth(y, m')
  {
  }

  lemma {:induction false} YearsMonotone(y: int, y': int)
    requires y < y'
    ensures DaysBeforeYear(y) + DaysInYear(y) <= DaysBeforeYear(y')
    decreases y' - y
  {
    YearStep(y);
    if y + 1 < y' {
      YearsMonotone(y + 1, y');
    }
  }

  /** A date that precedes another in Python's order has a smaller day number. */
  lemma DayNumberMonotone(a: DateTime, b: DateTime)
    requires (a.year, a.month, a.day) != (b.year, b.month, b.day)
    requires Before(a, b)
    ensures DayNumber(a) < DayNumber(b)
  {
    if a.year < b.year {
      MonthStep(a.year, a.month);
      if a.month < 12 { MonthsBeforeMonotone(a.year, a.month, 12); MonthStep(a.year, 12); }
      YearsMonotone(a.year, b.year);
    } else if a.month < b.month {
      MonthsBeforeMonotone(a.year, a.month, b.month);
    }
  }

  /** Python's field-by-field order is the order of the instants. */
  lemma BeforeIffSeconds(a: DateTime, b: DateTime)
    ensures Before(a, b) <==> Seconds(a) < Seconds(b)
  {
    if (a.year, a.month, a.day) == (b.year, b.month, b.day) {
      assert DayNumber(a) == DayNumber(b);
    } else if Before(a, b) {
      DayNumberMonotone(a, b);
    } else {
      assert Before(b, a);
      DayNumberMonotone(b, a);
    }
  }

  lemma LessEqIffSeconds(a: DateTime, b: DateTime)
    ensures LessEq(a, b) <==> Seconds(a) <= Seconds(b)
  {
    BeforeIffSeconds(a, b);
    BeforeIffSeconds(b, a);
  }

  lemma PrevDayNumber(t: DateTime)
    ensures DayNumber(PrevDay(t)) == DayNumber(t) - 1
    ensures TimeOfDay(PrevDay(t)) == TimeOfDay(t)
  {
    if t.day == 1 {
      if t.month > 1 {
        MonthStep(t.year, t.month - 1);
      } else {
        MonthStep(t.year - 1, 12);
        YearStep(t.year - 1);
      }
    }
  }

  /** Subtracting one second gives the instant one second earlier. */
  lemma MinusOneSecondSeconds(t: DateTime)
    ensures Seconds(MinusOneSecond(t)) == Seconds(t) - 1
  {
    if t.second == 0 && t.minute == 0 && t.hour == 0 {
      PrevDayNumber(t);
    }
  }

  /** Subtracting `n` days gives the instant `n` times 86400 seconds earlier, at the same time
      of day. */
  lemma {:induction false} MinusDaysSeconds(t: DateTime, n: nat)
    ensures Seconds(MinusDays(t, n)) == Seconds(t) - n * SecondsPerDay
    ensures TimeOfDay(MinusDays(t, n)) == TimeOfDay(t)
    decreases n
  {
    if n > 0 {
      PrevDayNumber(t);
      MinusDaysSeconds(PrevDay(t), n - 1);
    }
  }

  /** Python's order on datetimes is total: exactly one of `a <= b` and `b < a` holds. */
  lemma NotLessEq(a: DateTime, b: DateTime)
    ensures !LessEq(a, b) <==> Before(b, a)
  {
    LessEqIffSeconds(a, b);
    BeforeIffSeconds(b, a);
  }

  lemma LessEqTransitive(a: DateTime, b: DateTime, c: DateTime)
    requires LessEq(a, b) && LessEq(b, c)
    ensures LessEq(a, c)
    ensures Before(a, b) || Before(b, c) ==> Before(a, c)
  {
    LessEqIffSeconds(a, b);
    LessEqIffSeconds(b, c);
    LessEqIffSeconds(a, c);
    BeforeIffSeconds(a, b);
    BeforeIffSeconds(b, c);
    BeforeIffSeconds(a, c);
  }

  lemma BeforeTransitive(a: DateTime, b: DateTime, c: DateTime)
    requires LessEq(a, b) && Before(b, c)
    ensures Before(a, c)
  {
    LessEqIffSeconds(a, b);
    BeforeIffSeconds(b, c);
    BeforeIffSeconds(a, c);
  }
}
