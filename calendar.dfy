/**
 * The part of JavaScript's `Date` that the report routes and the dashboard statistics rely on,
 * following the day and time arithmetic of the ECMAScript standard (section 21.4.1 of
 * ECMA-262: Day, TimeWithinDay, DayFromYear, WeekDay, MakeTime, MakeDay, MakeDate).
 *
 * A point in time is a time value: an integer count of milliseconds. A date read from the
 * database or the clock is given by its local calendar fields (a `DateTime`), and its time
 * value is computed from them; local time is taken to be a fixed offset from UTC.
 * `MakeDay` normalises an out-of-range month or day the way `new Date(y, m, d)` and
 * `setDate` do, which is what the report windows depend on (day 0 is the last day of the
 * previous month, month -1 is December of the previous year).
 */
module Calendar {

  const MsPerSecond: int := 1000
  const MsPerMinute: int := 60000
  const MsPerHour: int := 3600000
  const MsPerDay: int := 86400000

  predicate IsLeapYear(y: int) {
    y % 4 == 0 && (y % 100 != 0 || y % 400 == 0)
  }

  function DaysInYear(y: int): int {
    if IsLeapYear(y) then 366 else 365
  }

  /** The day number of January 1st of year `y` (day 0 is 1 January 1970). */
  function DayFromYear(y: int): int {
    365 * (y - 1970) + (y - 1969) / 4 - (y - 1901) / 100 + (y - 1601) / 400
  }

  /** Length of month `m` (0 = January) of year `y`. */
  function DaysInMonth(y: int, m: int): (n: int)
    requires 0 <= m < 12
    ensures 28 <= n <= 31
  {
    if m == 1 then (if IsLeapYear(y) then 29 else 28)
    else if m == 3 || m == 5 || m == 8 || m == 10 then 30
    else 31
  }

  /** Number of days of year `y` before the first of month `m`. */
  function DaysBeforeMonth(y: int, m: int): int
    requires 0 <= m <= 12
  {
    if m == 0 then 0 else DaysBeforeMonth(y, m - 1) + DaysInMonth(y, m - 1)
  }

  /** A year and a month (0 = January) in range. */
  datatype YearMonth = YearMonth(year: int, month: int) {
    predicate Valid() { 0 <= month < 12 }
  }

  /** The year and month that `new Date(y, m, 1)` lands on, for any integer month `m`. */
  function Normalize(y: int, m: int): (r: YearMonth)
    ensures r.Valid()
  {
    YearMonth(y + m / 12, m % 12)
  }

  /** `MakeDay(year, month, date)`: the day number of `new Date(year, month, date)`. */
  function MakeDay(year: int, month: int, date: int): int {
    var ym := Normalize(year, month);
    DayFromYear(ym.year) + DaysBeforeMonth(ym.year, ym.month) + date - 1
  }

  function MakeTime(hours: int, minutes: int, seconds: int, millis: int): int {
    hours * MsPerHour + minutes * MsPerMinute + seconds * MsPerSecond + millis
  }

  function MakeDate(day: int, time: int): int {
    day * MsPerDay + time
  }

  /** `Day(t)`: the day a time value falls on (floor division). */
  function Day(t: int): int {
    t / MsPerDay
  }

  /** `WeekDay(t)`, which `getDay()` returns: 0 is Sunday, 1 is Monday; 1 January 1970 was a Thursday. */
  function WeekDay(t: int): int {
    (Day(t) + 4) % 7
  }

  /** A local date and time as the `Date` getters report it. */
  datatype DateTime = DateTime(year: int, month: int, date: int,
                               hours: int, minutes: int, seconds: int, millis: int)
  {
    /** The fields are those the getters report: every field in its range. */
    predicate Valid() {
      && 0 <= month < 12
      && 1 <= date <= DaysInMonth(year, month)
      && TimeFieldsInRange()
    }

    /**
     * The time-of-day fields are in range. The year, month and date of a `Date` built with
     * `new Date(y, m, d, …)` or moved with `setDate` may lie outside their ranges: `MakeDay`
     * normalises them.
     */
    predicate TimeFieldsInRange() {
      0 <= hours < 24 && 0 <= minutes < 60 && 0 <= seconds < 60 && 0 <= millis < 1000
    }

    /** `getTime()`. */
    function TimeValue(): int {
      MakeDate(MakeDay(year, month, date), MakeTime(hours, minutes, seconds, millis))
    }

    /** The day number of this date. */
    function DayNumber(): int {
      MakeDay(year, month, date)
    }

    /** The time value after `setHours(0, 0, 0, 0)`: midnight at the start of this day. */
    function StartOfDay(): int {
      MakeDate(DayNumber(), 0)
    }
  }

  // ---------------------------------------------------------------------------------------
  // Arithmetic facts about floor division used below.

  lemma DivModUnique(a: int, k: int, q: int, r: int)
    requires k > 0 && a == q * k + r && 0 <= r < k
    ensures a / k == q && a % k == r
  {
    var q', r' := a / k, a % k;
    assert (q - q') * k == r' - r;
    ProductBound(q - q', k, r' - r);
  }

  /** A multiple of `k` strictly between `-k` and `k` is zero. */
  lemma ProductBound(d: int, k: int, e: int)
    requires k > 0 && d * k == e && -k < e < k
    ensures d == 0
  {
  }

  /** Adding one to `a` raises `a / k` by one exactly when `a + 1` is a multiple of `k`. */
  lemma DivStep(a: int, k: int)
    requires k > 0
    ensures (a + 1) / k == a / k + (if (a + 1) % k == 0 then 1 else 0)
    ensures (a + 1) % k == if a % k == k - 1 then 0 else a % k + 1
  {
    var q, r := a / k, a % k;
    if r == k - 1 {
      DivModUnique(a + 1, k, q + 1, 0);
    } else {
      DivModUnique(a + 1, k, q, r + 1);
    }
  }

  lemma ShiftMod(y: int, c: int, k: int)
    requires k > 0
    ensures (y - c * k) % k == y % k
  {
    DivModUnique(y - c * k, k, y / k - c, y % k);
  }

  lemma MultipleOf400(y: int)
    requires y % 400 == 0
    ensures y % 100 == 0
  {
    DivModUnique(y, 100, 4 * (y / 400), 0);
  }

  lemma MultipleOf100(y: int)
    requires y % 100 == 0
    ensures y % 4 == 0
  {
    DivModUnique(y, 4, 25 * (y / 100), 0);
  }

  // ---------------------------------------------------------------------------------------
  // The calendar.

  lemma DaysBeforeDecemberEnd(y: int)
    ensures DaysBeforeMonth(y, 12) == DaysInYear(y)
    ensures DaysBeforeMonth(y, 11) + DaysInMonth(y, 11) == DaysInYear(y)
  {
    assert DaysBeforeMonth(y, 1) == DaysBeforeMonth(y, 0) + DaysInMonth(y, 0);
    assert DaysBeforeMonth(y, 2) == DaysBeforeMonth(y, 1) + DaysInMonth(y, 1);
    assert DaysBeforeMonth(y, 3) == DaysBeforeMonth(y, 2) + DaysInMonth(y, 2);
    assert DaysBeforeMonth(y, 4) == DaysBeforeMonth(y, 3) + DaysInMonth(y, 3);
    assert DaysBeforeMonth(y, 5) == DaysBeforeMonth(y, 4) + DaysInMonth(y, 4);
    assert DaysBeforeMonth(y, 6) == DaysBeforeMonth(y, 5) + DaysInMonth(y, 5);
    assert DaysBeforeMonth(y, 7) == DaysBeforeMonth(y, 6) + DaysInMonth(y, 6);
    assert DaysBeforeMonth(y, 8) == DaysBeforeMonth(y, 7) + DaysInMonth(y, 7);
    assert DaysBeforeMonth(y, 9) == DaysBeforeMonth(y, 8) + DaysInMonth(y, 8);
    assert DaysBeforeMonth(y, 10) == DaysBeforeMonth(y, 9) + DaysInMonth(y, 9);
    assert DaysBeforeMonth(y, 11) == DaysBeforeMonth(y, 10) + DaysInMonth(y, 10);
    assert DaysBeforeMonth(y, 12) == DaysBeforeMonth(y, 11) + DaysInMonth(y, 11);
  }

  /** The first day of year `y + 1` follows the last day of year `y`. */
  lemma DayFromYearNext(y: int)
    ensures DayFromYear(y + 1) == DayFromYear(y) + DaysInYear(y)
  {
    DivStep(y - 1969, 4);
    DivStep(y - 1901, 100);
    DivStep(y - 1601, 400);
    ShiftMod(y, 492, 4);
    ShiftMod(y, 19, 100);
    ShiftMod(y, 4, 400);
    assert (y - 1968) % 4 == y % 4;
    assert (y - 1900) % 100 == y % 100;
    assert (y - 1600) % 400 == y % 400;
    if y % 400 == 0 { MultipleOf400(y); }
    if y % 100 == 0 { MultipleOf100(y); }
  }

  /** The month after `m`, normalised: December rolls over to January of the next year. */
  lemma NormalizeNext(y: int, m: int)
    ensures var a, b := Normalize(y, m), Normalize(y, m + 1);
      if a.month == 11 then b == YearMonth(a.year + 1, 0) else b == YearMonth(a.year, a.month + 1)
  {
    DivStep(m, 12);
  }

  /** The first of month `m + 1` comes `DaysInMonth` days after the first of month `m`. */
  lemma {:induction false} MakeDayNextMonth(y: int, m: int)
    ensures var ym := Normalize(y, m);
      MakeDay(y, m + 1, 1) == MakeDay(y, m, 1) + DaysInMonth(ym.year, ym.month)
  {
    var ym := Normalize(y, m);
    NormalizeNext(y, m);
    if ym.month == 11 {
      DayFromYearNext(ym.year);
      DaysBeforeDecemberEnd(ym.year);
    }
  }

  /**
   * `new Date(y, m + 1, 0)` is the last day of month `m`: day 0 of a month normalises to
   * the last day of the month before it.
   */
  lemma DayZeroIsLastDay(y: int, m: int)
    ensures var ym := Normalize(y, m);
      MakeDay(y, m + 1, 0) == MakeDay(ym.year, ym.month, DaysInMonth(ym.year, ym.month))
  {
    MakeDayNextMonth(y, m);
    var ym := Normalize(y, m);
    assert Normalize(ym.year, ym.month) == ym;
  }

  /** Normalising a month that is already in range changes nothing; month -1 is December of the year before. */
  lemma NormalizeFacts(y: int, m: int)
    ensures 0 <= m < 12 ==> Normalize(y, m) == YearMonth(y, m)
    ensures Normalize(y, -1) == YearMonth(y - 1, 11)
    ensures 1 <= m < 12 ==> Normalize(y, m - 1) == YearMonth(y, m - 1)
  {
  }

  /** `setDate(getDate() + k)` moves a date by exactly `k` days, across month and year ends. */
  lemma MakeDayShift(y: int, m: int, d: int, k: int)
    ensures MakeDay(y, m, d + k) == MakeDay(y, m, d) + k
  {
  }

  /** A time value made from a day and a time of day within it falls on that day. */
  lemma DayOfMakeDate(day: int, time: int)
    requires 0 <= time < MsPerDay
    ensures Day(MakeDate(day, time)) == day
  {
    DivModUnique(MakeDate(day, time), MsPerDay, day, time);
  }

  /** A date whose time-of-day fields are in range falls on the day its date fields name. */
  lemma TimeOfDayInRange(dt: DateTime)
    requires dt.TimeFieldsInRange()
    ensures 0 <= MakeTime(dt.hours, dt.minutes, dt.seconds, dt.millis) < MsPerDay
    ensures dt.StartOfDay() <= dt.TimeValue() < dt.StartOfDay() + MsPerDay
    ensures Day(dt.TimeValue()) == dt.DayNumber()
  {
    DayOfMakeDate(dt.DayNumber(), MakeTime(dt.hours, dt.minutes, dt.seconds, dt.millis));
  }

  /** `getDay()` of a valid date. */
  function WeekDayOf(dt: DateTime): (wd: int)
    requires dt.Valid()
    ensures 0 <= wd < 7
    ensures wd == (dt.DayNumber() + 4) % 7
  {
    TimeOfDayInRange(dt);
    WeekDay(dt.TimeValue())
  }

  // ---------------------------------------------------------------------------------------
  // In-range fields name a day uniquely, so the getters of a `Date` report the in-range
  // fields of its day: `new Date(y, m, 0).getMonth()` is the month `DayZeroIsLastDay` names.

  /** Valid fields (month in range, date within the month). */
  predicate ValidDay(y: int, m: int, d: int) {
    0 <= m < 12 && 1 <= d <= DaysInMonth(y, m)
  }

  lemma {:induction false} DaysBeforeMonthIncreasing(y: int, a: int, b: int)
    requires 0 <= a < b <= 12
    ensures DaysBeforeMonth(y, a) + DaysInMonth(y, a) <= DaysBeforeMonth(y, b)
    decreases b - a
  {
    if a + 1 < b {
      DaysBeforeMonthIncreasing(y, a + 1, b);
    }
  }

  /** The day of valid fields lies within its year. */
  lemma DayWithinYear(y: int, m: int, d: int)
    requires ValidDay(y, m, d)
    ensures DayFromYear(y) <= MakeDay(y, m, d) < DayFromYear(y + 1)
  {
    NormalizeFacts(y, m);
    DayFromYearNext(y);
    DaysBeforeDecemberEnd(y);
    if m > 0 {
      DaysBeforeMonthIncreasing(y, 0, m);
    }
    if m < 11 {
      DaysBeforeMonthIncreasing(y, m, 11);
    }
  }

  lemma {:induction false} DayFromYearIncreasing(a: int, b: int)
    requires a < b
    ensures DayFromYear(a + 1) <= DayFromYear(b)
    decreases b - a
  {
    DayFromYearNext(a);
    if a + 1 < b {
      DayFromYearIncreasing(a + 1, b);
      DayFromYearNext(a + 1);
    }
  }

  /** Two sets of valid fields naming the same day are the same fields. */
  lemma MakeDayInjective(y1: int, m1: int, d1: int, y2: int, m2: int, d2: int)
    requires ValidDay(y1, m1, d1) && ValidDay(y2, m2, d2)
    requires MakeDay(y1, m1, d1) == MakeDay(y2, m2, d2)
    ensures y1 == y2 && m1 == m2 && d1 == d2
  {
    DayWithinYear(y1, m1, d1);
    DayWithinYear(y2, m2, d2);
    if y1 < y2 {
      DayFromYearIncreasing(y1, y2);
    } else if y2 < y1 {
      DayFromYearIncreasing(y2, y1);
    } else {
      NormalizeFacts(y1, m1);
      NormalizeFacts(y2, m2);
      if m1 < m2 {
        DaysBeforeMonthIncreasing(y1, m1, m2);
      } else if m2 < m1 {
        DaysBeforeMonthIncreasing(y1, m2, m1);
      }
    }
  }

  /**
   * The getters of `new Date(y, m, 0)`: the year and month `Normalize(y, m - 1)` and the
   * last date of that month, which are the only in-range fields of that day.
   */
  lemma DayZeroGetters(y: int, m: int, y': int, m': int, d': int)
    requires ValidDay(y', m', d') && MakeDay(y', m', d') == MakeDay(y, m, 0)
    ensures var ym := Normalize(y, m - 1);
      y' == ym.year && m' == ym.month && d' == DaysInMonth(ym.year, ym.month)
  {
    var ym := Normalize(y, m - 1);
    DayZeroIsLastDay(y, m - 1);
    NormalizeFacts(ym.year, ym.month);
    MakeDayInjective(y', m', d', ym.year, ym.month, DaysInMonth(ym.year, ym.month));
  }

  /** The getters of `new Date(y, m, 1)`: the year and month `Normalize(y, m)`, and date 1. */
  lemma FirstOfMonthGetters(y: int, m: int, y': int, m': int, d': int)
    requires ValidDay(y', m', d') && MakeDay(y', m', d') == MakeDay(y, m, 1)
    ensures var ym := Normalize(y, m); y' == ym.year && m' == ym.month && d' == 1
  {
    var ym := Normalize(y, m);
    NormalizeFacts(ym.year, ym.month);
    MakeDayInjective(y', m', d', ym.year, ym.month, 1);
  }

  // ---------------------------------------------------------------------------------------
  // Months counted from January of year 0: `12 * y + m` names the month `new Date(y, m, 1)`
  // lands on, and a valid date lies on or after the first of a month exactly when its own
  // month count is at least that month's.

  /** `new Date(y, m, d)` depends on the year and the month only through the month count `12 * y + m`. */
  lemma NormalizeByIndex(y: int, m: int)
    ensures Normalize(y, m) == Normalize(0, 12 * y + m)
  {
    DivModUnique(12 * y + m, 12, y + m / 12, m % 12);
  }

  /** The first days of the months do not decrease with the month count. */
  lemma {:induction false} MonthFirstsIncrease(j: int, k: int)
    requires j <= k
    ensures MakeDay(0, j, 1) <= MakeDay(0, k, 1)
    decreases k - j
  {
    if j < k {
      MakeDayNextMonth(0, j);
      MonthFirstsIncrease(j + 1, k);
    }
  }

  /** The day of valid fields lies from the first of its month to before the first of the next month. */
  lemma DayWithinMonth(y: int, m: int, d: int)
    requires ValidDay(y, m, d)
    ensures MakeDay(0, 12 * y + m, 1) <= MakeDay(y, m, d) < MakeDay(0, 12 * y + m + 1, 1)
  {
    NormalizeByIndex(y, m);
    NormalizeByIndex(y, m + 1);
    NormalizeFacts(y, m);
    MakeDayShift(y, m, 1, d - 1);
    MakeDayNextMonth(y, m);
  }

  /** A valid date falls on or after the first of month `k` exactly when its own month count is at least `k`. */
  lemma OnOrAfterFirst(y: int, m: int, d: int, k: int)
    requires ValidDay(y, m, d)
    ensures MakeDay(0, k, 1) <= MakeDay(y, m, d) <==> k <= 12 * y + m
  {
    DayWithinMonth(y, m, d);
    if k <= 12 * y + m {
      MonthFirstsIncrease(k, 12 * y + m);
    } else {
      MonthFirstsIncrease(12 * y + m + 1, k);
    }
  }

  /** A date whose time-of-day fields are in range is at or after midnight of day `c` exactly when its day is at least `c`. */
  lemma OnOrAfterMidnight(c: int, dt: DateTime)
    requires dt.TimeFieldsInRange()
    ensures MakeDate(c, 0) <= dt.TimeValue() <==> c <= dt.DayNumber()
  {
    TimeOfDayInRange(dt);
  }
}
