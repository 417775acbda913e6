/**
 * The decisions the cron routes make before touching the database: whether the caller
 * presented the cron secret, which report frequencies are due on a given day, and the
 * time windows each report covers. The routes build these windows by mutating `Date`
 * objects (`setHours`, `setDate`) or with the `Date` constructor; each method below
 * performs the same steps on the local fields of a date, and `TimeValue` gives the instant.
 */
module ReportWindows {
  import opened Common
  import opened Domain
  import opened Calendar
  import opened Text

  // ---------------------------------------------------------------------------------------
  // The cron secret.

  /**
   * The request passes only when a non-empty `CRON_SECRET` is configured and the
   * `Authorization` header is exactly `Bearer <secret>`; otherwise the route answers 401.
   */
  predicate Authorized(authHeader: Option<string>, cronSecret: Option<string>) {
    Truthy(cronSecret) && authHeader == Some("Bearer " + cronSecret.value)
  }

  /**
   * The accepted header is a Bearer credential (section 2.1 of RFC 6750) whose token is the
   * configured secret, and an unset or empty secret lets nobody in.
   */
  lemma AuthorizedMeans(authHeader: Option<string>, cronSecret: Option<string>)
    ensures Authorized(authHeader, cronSecret) <==>
      && cronSecret.Some? && cronSecret.value != ""
      && authHeader.Some? && StartsWith(authHeader.value, "Bearer ")
      && authHeader.value[7..] == cronSecret.value
  {
    if authHeader.Some? && StartsWith(authHeader.value, "Bearer ") {
      var h := authHeader.value;
      assert h == h[..7] + h[7..];
    }
    if Authorized(authHeader, cronSecret) {
      var h := authHeader.value;
      assert h[..7] == "Bearer ";
      assert h[7..] == cronSecret.value;
    }
  }

  // ---------------------------------------------------------------------------------------
  // Which frequencies run today.

  function FrequencyRank(f: ReportFrequency): nat {
    match f
    case DAILY => 0
    case WEEKLY => 1
    case MONTHLY => 2
  }

  /**
   * `frequenciesToRun`: DAILY always, WEEKLY on a Monday, MONTHLY on the first of the month,
   * pushed in that order, so the list starts with DAILY and has no repeats.
   */
  method FrequenciesToRun(now: DateTime) returns (fs: seq<ReportFrequency>)
    requires now.Valid()
    ensures |fs| >= 1 && fs[0] == DAILY
    ensures WEEKLY in fs <==> WeekDayOf(now) == 1
    ensures MONTHLY in fs <==> now.date == 1
    ensures forall i, j :: 0 <= i < j < |fs| ==> FrequencyRank(fs[i]) < FrequencyRank(fs[j])
  {
    fs := [DAILY];
    if WeekDayOf(now) == 1 {
      fs := fs + [WEEKLY];
    }
    if now.date == 1 {
      fs := fs + [MONTHLY];
    }
  }

  // ---------------------------------------------------------------------------------------
  // Windows.

  /** The instant at midnight starting the day that instant `t` falls on. */
  function Midnight(t: int): int {
    MakeDate(Day(t), 0)
  }

  /** `d.setHours(0, 0, 0, 0)`. */
  function ClearTime(d: DateTime): DateTime {
    d.(hours := 0, minutes := 0, seconds := 0, millis := 0)
  }

  /**
   * The daily window: `today` is `now` with `setHours(0, 0, 0, 0)`, `tomorrow` is `today`
   * with `setDate(getDate() + 1)`. It is the whole day `now` falls on, one day long.
   */
  method DailyWindow(now: DateTime) returns (today: DateTime, tomorrow: DateTime)
    requires now.Valid()
    ensures today.TimeValue() == Midnight(now.TimeValue())
    ensures tomorrow.TimeValue() == today.TimeValue() + MsPerDay
    ensures today.TimeValue() <= now.TimeValue() < tomorrow.TimeValue()
  {
    today := ClearTime(now);
    tomorrow := today.(date := today.date + 1);
    TimeOfDayInRange(now);
    MakeDayShift(today.year, today.month, today.date, 1);
  }

  /** The instant seven days of milliseconds before `t`. */
  function SevenDaysBefore(t: int): int {
    t - 7 * MsPerDay
  }

  /**
   * The weekly window of the combined cron route: `weekEnd` is today at 00:00 and
   * `weekStart` is `weekEnd` moved back seven days, so the window is the seven whole days
   * before today.
   */
  method PreviousSevenDays(now: DateTime) returns (weekStart: DateTime, weekEnd: DateTime)
    requires now.Valid()
    ensures weekEnd.TimeValue() == Midnight(now.TimeValue())
    ensures weekStart.TimeValue() == SevenDaysBefore(weekEnd.TimeValue())
  {
    weekEnd := ClearTime(now);
    weekStart := weekEnd.(date := weekEnd.date - 7);
    TimeOfDayInRange(now);
    MakeDayShift(weekEnd.year, weekEnd.month, weekEnd.date, -7);
  }

  /**
   * The weekly window of the weekly route: the offset is -6 on a Sunday and `1 - getDay()`
   * otherwise, so `weekStart` is 00:00 on the Monday on or before today, and `weekEnd` is
   * seven days later.
   */
  method MondayWeek(now: DateTime) returns (weekStart: DateTime, weekEnd: DateTime)
    requires now.Valid()
    ensures WeekDay(weekStart.TimeValue()) == 1
    ensures weekStart.TimeValue() == Midnight(weekStart.TimeValue())
    ensures Day(weekStart.TimeValue()) <= Day(now.TimeValue()) <= Day(weekStart.TimeValue()) + 6
    ensures weekEnd.TimeValue() == weekStart.TimeValue() + 7 * MsPerDay
  {
    var dayOfWeek := WeekDayOf(now);
    var diff := if dayOfWeek == 0 then -6 else 1 - dayOfWeek;
    weekStart := now.(date := now.date + diff);
    weekStart := ClearTime(weekStart);
    // `weekStart.getDate() + 7` moves the normalised date by seven days, which is the
    // same day as moving the stored date field by seven (`MakeDayShift`).
    weekEnd := weekStart.(date := weekStart.date + 7);

    var d := now.DayNumber();
    TimeOfDayInRange(now);
    MakeDayShift(now.year, now.month, now.date, diff);
    MakeDayShift(now.year, now.month, now.date + diff, 7);
    DayOfMakeDate(d + diff, 0);
    DivModUnique(d + diff + 4, 7, (d + 4) / 7 - (if dayOfWeek == 0 then 1 else 0), 1);
  }

  /** The month before month `m` of year `y`: December of the year before in January. */
  function PreviousMonth(y: int, m: int): (r: YearMonth)
    requires 0 <= m < 12
    ensures r.Valid()
  {
    if m == 0 then YearMonth(y - 1, 11) else YearMonth(y, m - 1)
  }

  /** The first instant of a month. */
  function MonthStartTime(ym: YearMonth): int {
    MakeDate(MakeDay(ym.year, ym.month, 1), 0)
  }

  /** `new Date(y, m, 0, 23, 59, 59, 999)`: the last millisecond of the month before `m`. */
  function EndOfMonthBefore(y: int, m: int): DateTime {
    DateTime(y, m, 0, 23, 59, 59, 999)
  }

  /** The last millisecond of a month is one millisecond before the first of the next. */
  lemma EndOfMonthBeforeTime(y: int, m: int)
    ensures EndOfMonthBefore(y, m).TimeValue() + 1 == MakeDate(MakeDay(y, m, 1), 0)
  {
    MakeDayShift(y, m, 0, 1);
  }

  /** The month `Normalize(y, m)` and the month `PreviousMonth` names after it. */
  lemma NormalizePrevious(y: int, m: int)
    requires 0 <= m < 12
    ensures Normalize(y, m - 1) == PreviousMonth(y, m)
  {
    NormalizeFacts(y, m);
  }

  /**
   * The windows of the monthly route: the current month and the month before it, both
   * closed intervals from 00:00 on the first to 23:59:59.999 on the last day; in January
   * the previous month is December of the year before.
   */
  method CurrentMonthWindows(now: DateTime)
    returns (monthStart: DateTime, monthEnd: DateTime, prevMonthStart: DateTime, prevMonthEnd: DateTime)
    requires now.Valid()
    ensures monthStart.TimeValue() == MonthStartTime(YearMonth(now.year, now.month))
    ensures monthEnd.TimeValue() + 1 == monthStart.TimeValue() + DaysInMonth(now.year, now.month) * MsPerDay
    ensures monthStart.TimeValue() <= now.TimeValue() <= monthEnd.TimeValue()
    ensures prevMonthStart.TimeValue() == MonthStartTime(PreviousMonth(now.year, now.month))
    ensures prevMonthEnd.TimeValue() + 1 == monthStart.TimeValue()
    ensures var p := PreviousMonth(now.year, now.month);
      prevMonthEnd.TimeValue() + 1 == prevMonthStart.TimeValue() + DaysInMonth(p.year, p.month) * MsPerDay
  {
    monthStart := DateTime(now.year, now.month, 1, 0, 0, 0, 0);
    monthEnd := EndOfMonthBefore(now.year, now.month + 1);
    prevMonthStart := DateTime(now.year, now.month - 1, 1, 0, 0, 0, 0);
    prevMonthEnd := EndOfMonthBefore(now.year, now.month);

    EndOfMonthBeforeTime(now.year, now.month + 1);
    EndOfMonthBeforeTime(now.year, now.month);
    MakeDayNextMonth(now.year, now.month);
    MakeDayNextMonth(now.year, now.month - 1);
    NormalizeFacts(now.year, now.month);
    NormalizePrevious(now.year, now.month);
    var p := PreviousMonth(now.year, now.month);
    NormalizeFacts(p.year, p.month);
    TimeOfDayInRange(now);
    MakeDayShift(now.year, now.month, 1, now.date - 1);
    assert MakeDay(now.year, now.month, now.date) < MakeDay(now.year, now.month, 1) + DaysInMonth(now.year, now.month);
  }

  /**
   * The windows of the combined cron route, run on the first of a month: the month before
   * the current one, built from `monthEnd`'s getters, and the month before that.
   */
  method PreviousMonthWindows(now: DateTime)
    returns (monthStart: DateTime, monthEnd: DateTime, prevMonthStart: DateTime, prevMonthEnd: DateTime)
    requires now.Valid()
    ensures var p := PreviousMonth(now.year, now.month);
      && monthStart.TimeValue() == MonthStartTime(p)
      && monthEnd.TimeValue() + 1 == MonthStartTime(YearMonth(now.year, now.month))
      && monthEnd.TimeValue() + 1 == monthStart.TimeValue() + DaysInMonth(p.year, p.month) * MsPerDay
      && prevMonthStart.TimeValue() == MonthStartTime(PreviousMonth(p.year, p.month))
      && prevMonthEnd.TimeValue() + 1 == monthStart.TimeValue()
  {
    monthEnd := EndOfMonthBefore(now.year, now.month);
    // `monthEnd.getFullYear()` and `monthEnd.getMonth()`: see `DayZeroGetters`.
    var me := Normalize(now.year, now.month - 1);
    monthStart := DateTime(me.year, me.month, 1, 0, 0, 0, 0);
    prevMonthEnd := EndOfMonthBefore(monthStart.year, monthStart.month);
    // `prevMonthEnd`'s getters, likewise.
    var pe := Normalize(monthStart.year, monthStart.month - 1);
    prevMonthStart := DateTime(pe.year, pe.month, 1, 0, 0, 0, 0);

    var p := PreviousMonth(now.year, now.month);
    NormalizePrevious(now.year, now.month);
    NormalizePrevious(p.year, p.month);
    NormalizeFacts(now.year, now.month);
    NormalizeFacts(p.year, p.month);
    EndOfMonthBeforeTime(now.year, now.month);
    EndOfMonthBeforeTime(p.year, p.month);
    MakeDayNextMonth(p.year, p.month);
    assert Normalize(p.year, p.month + 1) == YearMonth(now.year, now.month) by {
      NormalizeNext(p.year, p.month);
    }
  }
}
