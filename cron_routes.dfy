/**
 * The cron endpoints: the combined route that runs whichever reports are due today, and the
 * three single-report routes. Each report reads the transactions and tasks of its window,
 * computes its figures, mails every recipient of its schedules, stamps the schedules and
 * logs the run. A report's figures are given by a function of the stored rows and the
 * window (`DailyReportOf`, `WeeklyReportOf`, `MonthlyReportOf`); the methods follow the
 * routes' steps and are proved to produce those figures and that new state.
 */
module CronRoutes {
  import opened Common
  import opened Domain
  import opened Calendar
  import opened Sorting
  import opened ReportData
  import opened Store
  import opened ReportWindows
  import opened ReportDelivery

  // ---------------------------------------------------------------------------------------
  // The queries.

  /** `where: { date: { gte: lo, lt: hi } }`. */
  function TransactionsBetween(ts: seq<Transaction>, lo: int, hi: int): seq<Transaction> {
    Filter(ts, (t: Transaction) => lo <= t.date.TimeValue() < hi)
  }

  /** `where: { date: { gte: lo, lte: hi } }`. */
  function TransactionsThrough(ts: seq<Transaction>, lo: int, hi: int): seq<Transaction> {
    Filter(ts, (t: Transaction) => lo <= t.date.TimeValue() <= hi)
  }

  /** `where: { status: "DONE", updatedAt: { gte: lo, lt: hi } }`. */
  function DoneUpdatedBetween(ts: seq<Task>, lo: int, hi: int): seq<Task> {
    Filter(ts, (t: Task) => t.status == DONE && lo <= t.updatedAt.TimeValue() < hi)
  }

  /** `where: { createdAt: { gte: lo, lt: hi } }`. */
  function CreatedBetween(ts: seq<Task>, lo: int, hi: int): seq<Task> {
    Filter(ts, (t: Task) => lo <= t.createdAt.TimeValue() < hi)
  }

  /** `where: { createdAt: { gte: lo, lte: hi } }`. */
  function CreatedThrough(ts: seq<Task>, lo: int, hi: int): seq<Task> {
    Filter(ts, (t: Task) => lo <= t.createdAt.TimeValue() <= hi)
  }

  /** `where: { frequency: f, isActive: true }`. */
  function ActiveOf(ss: seq<ReportSchedule>, f: ReportFrequency): seq<ReportSchedule> {
    Filter(ss, (s: ReportSchedule) => s.isActive && s.frequency == f)
  }

  /** `orderBy: { date: "desc" }`. */
  predicate ByDateDesc(a: Transaction, b: Transaction) {
    a.date.TimeValue() >= b.date.TimeValue()
  }

  // ---------------------------------------------------------------------------------------
  // The figures of each report.

  datatype DailyReport = DailyReport(
    date: int, summary: Summary, transactions: seq<Transaction>, completedTasksCount: nat)

  datatype WeeklyReport = WeeklyReport(
    weekStart: int, weekEnd: int, financialSummary: Summary, taskStatistics: TaskStatistics,
    topCategories: seq<CategoryTotal>, transactionsCount: nat)

  datatype MonthlyReport = MonthlyReport(
    monthStart: int, monthEnd: int, financialSummary: Summary, taskStatistics: TaskStatistics,
    topCategories: seq<CategoryTotal>, transactionsCount: nat, previousMonthNet: Option<int>)

  /** The daily report of the day starting at instant `day`. */
  function DailyReportOf(ts: seq<Transaction>, tasks: seq<Task>, day: int): DailyReport {
    var txs := SortBy(TransactionsBetween(ts, day, day + MsPerDay), ByDateDesc);
    DailyReport(day, Summarize(txs), txs, |DoneUpdatedBetween(tasks, day, day + MsPerDay)|)
  }

  /** The weekly report of the half-open window `[lo, hi)`. */
  function WeeklyReportOf(ts: seq<Transaction>, tasks: seq<Task>, lo: int, hi: int): WeeklyReport {
    var txs := TransactionsBetween(ts, lo, hi);
    WeeklyReport(lo, hi, Summarize(txs), TaskStats(CreatedBetween(tasks, lo, hi)), TopCategories(txs), |txs|)
  }

  /** `previousMonthNet`: null when the previous month has no transactions. */
  function PreviousMonthNet(prev: seq<Transaction>): (r: Option<int>)
    ensures r.None? <==> prev == []
  {
    if |prev| > 0 then Some(TypeTotal(prev, INCOME) - TypeTotal(prev, EXPENSE)) else None
  }

  /** The monthly report of the closed window `[lo, hi]`, compared with `[prevLo, prevHi]`. */
  function MonthlyReportOf(ts: seq<Transaction>, tasks: seq<Task>, lo: int, hi: int, prevLo: int, prevHi: int): MonthlyReport {
    var txs := TransactionsThrough(ts, lo, hi);
    MonthlyReport(lo, hi, Summarize(txs), TaskStats(CreatedThrough(tasks, lo, hi)), TopCategories(txs), |txs|,
                  PreviousMonthNet(TransactionsThrough(ts, prevLo, prevHi)))
  }

  /**
   * The daily report lists exactly the transactions of its day, latest first, and its
   * summary is the income, expense and net of those transactions.
   */
  lemma DailyReportSpec(ts: seq<Transaction>, tasks: seq<Task>, day: int)
    ensures var r := DailyReportOf(ts, tasks, day);
      && multiset(r.transactions) == multiset(TransactionsBetween(ts, day, day + MsPerDay))
      && SortedBy(r.transactions, ByDateDesc)
      && r.summary == Summarize(TransactionsBetween(ts, day, day + MsPerDay))
      && r.summary.net == r.summary.income - r.summary.expense
  {
    var window := TransactionsBetween(ts, day, day + MsPerDay);
    SortBySorted(window, ByDateDesc);
    SummarizePermutation(SortBy(window, ByDateDesc), window);
  }

  /** The previous month's net is the income minus the expense of that month, when it has rows. */
  lemma PreviousMonthNetSpec(prev: seq<Transaction>)
    ensures PreviousMonthNet(prev).Some? ==> PreviousMonthNet(prev).value == Summarize(prev).net
    ensures PreviousMonthNet(prev).Some? ==> PreviousMonthNet(prev).value + 2 * Summarize(prev).expense == TotalAmount(prev)
  {
    IncomeExpensePartition(prev);
  }

  /** The metadata logged for a run. */
  function DailyMetadata(r: DailyReport, results: seq<EmailResult>): LogMetadata {
    var stats := EmailStats(results);
    ReportRun("daily", r.date, None, |r.transactions|, r.completedTasksCount, stats.emailsSent, stats.emailsFailed)
  }

  function WeeklyMetadata(r: WeeklyReport, results: seq<EmailResult>): LogMetadata {
    var stats := EmailStats(results);
    ReportRun("weekly", r.weekStart, Some(r.weekEnd), r.transactionsCount, r.taskStatistics.completed,
              stats.emailsSent, stats.emailsFailed)
  }

  function MonthlyMetadata(r: MonthlyReport, results: seq<EmailResult>): LogMetadata {
    var stats := EmailStats(results);
    ReportRun("monthly", r.monthStart, Some(r.monthEnd), r.transactionsCount, r.taskStatistics.completed,
              stats.emailsSent, stats.emailsFailed)
  }

  // ---------------------------------------------------------------------------------------
  // Running one report for a batch of schedules.

  /** `runDailyReport`, and the body of the daily route once its schedules are read. */
  method RunDailyReport(db: Db, batch: seq<ReportSchedule>, now: DateTime, start: nat,
                        sent: (nat, string) -> bool, runAt: int)
    returns (report: DailyReport, results: seq<EmailResult>)
    requires now.Valid()
    modifies db`schedules, db`logs
    ensures report == DailyReportOf(old(db.transactions), old(db.tasks), Midnight(now.TimeValue()))
    ensures results == Deliveries(Recipients(batch), start, sent)
    ensures db.schedules == StampRuns(old(db.schedules), ScheduleIds(batch), runAt)
    ensures db.logs == old(db.logs) + ReportLog(batch, "daily", DailyMetadata(report, results))
  {
    var today, tomorrow := DailyWindow(now);
    var lo, hi := today.TimeValue(), tomorrow.TimeValue();
    var transactions := SortBy(TransactionsBetween(db.transactions, lo, hi), ByDateDesc);
    var completedTasks := DoneUpdatedBetween(db.tasks, lo, hi);
    report := DailyReport(lo, Summarize(transactions), transactions, |completedTasks|);
    assert hi == lo + MsPerDay;
    assert report == DailyReportOf(db.transactions, db.tasks, lo);
    results := SendEmails(db, batch, start, sent, runAt);
    LogActivity(db, batch, "daily", DailyMetadata(report, results));
  }

  /** `runWeeklyReport` over the window `[weekStart, weekEnd)`. */
  method RunWeeklyReport(db: Db, batch: seq<ReportSchedule>, weekStart: int, weekEnd: int, start: nat,
                         sent: (nat, string) -> bool, runAt: int)
    returns (report: WeeklyReport, results: seq<EmailResult>)
    modifies db`schedules, db`logs
    ensures report == WeeklyReportOf(old(db.transactions), old(db.tasks), weekStart, weekEnd)
    ensures results == Deliveries(Recipients(batch), start, sent)
    ensures db.schedules == StampRuns(old(db.schedules), ScheduleIds(batch), runAt)
    ensures db.logs == old(db.logs) + ReportLog(batch, "weekly", WeeklyMetadata(report, results))
  {
    var transactions := TransactionsBetween(db.transactions, weekStart, weekEnd);
    var allTasks := CreatedBetween(db.tasks, weekStart, weekEnd);
    report := WeeklyReport(weekStart, weekEnd, Summarize(transactions), TaskStats(allTasks),
                           TopCategories(transactions), |transactions|);
    results := SendEmails(db, batch, start, sent, runAt);
    LogActivity(db, batch, "weekly", WeeklyMetadata(report, results));
  }

  /** `runMonthlyReport` over `[monthStart, monthEnd]`, compared with `[prevStart, prevEnd]`. */
  method RunMonthlyReport(db: Db, batch: seq<ReportSchedule>, monthStart: int, monthEnd: int,
                          prevStart: int, prevEnd: int, start: nat, sent: (nat, string) -> bool, runAt: int)
    returns (report: MonthlyReport, results: seq<EmailResult>)
    modifies db`schedules, db`logs
    ensures report == MonthlyReportOf(old(db.transactions), old(db.tasks), monthStart, monthEnd, prevStart, prevEnd)
    ensures results == Deliveries(Recipients(batch), start, sent)
    ensures db.schedules == StampRuns(old(db.schedules), ScheduleIds(batch), runAt)
    ensures db.logs == old(db.logs) + ReportLog(batch, "monthly", MonthlyMetadata(report, results))
  {
    var transactions := TransactionsThrough(db.transactions, monthStart, monthEnd);
    var prevTransactions := TransactionsThrough(db.transactions, prevStart, prevEnd);
    var allTasks := CreatedThrough(db.tasks, monthStart, monthEnd);
    report := MonthlyReport(monthStart, monthEnd, Summarize(transactions), TaskStats(allTasks),
                            TopCategories(transactions), |transactions|, PreviousMonthNet(prevTransactions));
    results := SendEmails(db, batch, start, sent, runAt);
    LogActivity(db, batch, "monthly", MonthlyMetadata(report, results));
  }

  // ---------------------------------------------------------------------------------------
  // The combined route.

  /** Whether reports of frequency `f` are due on the day of `now`. */
  predicate IsDue(now: DateTime, f: ReportFrequency)
    requires now.Valid()
  {
    match f
    case DAILY => true
    case WEEKLY => WeekDayOf(now) == 1
    case MONTHLY => now.date == 1
  }

  /** The active schedules of frequency `f`, when `f` is due today. */
  function DueOf(ss: seq<ReportSchedule>, now: DateTime, f: ReportFrequency): seq<ReportSchedule>
    requires now.Valid()
  {
    if IsDue(now, f) then ActiveOf(ss, f) else []
  }

  /** The schedules of one frequency, in their original order. */
  function OfFrequency(ss: seq<ReportSchedule>, f: ReportFrequency): seq<ReportSchedule> {
    Filter(ss, (s: ReportSchedule) => s.frequency == f)
  }

  /** Every schedule has one of the three frequencies, so the three groups are empty together with the list. */
  lemma NoneOfAnyFrequency(ss: seq<ReportSchedule>)
    ensures ss == [] <==> OfFrequency(ss, DAILY) + OfFrequency(ss, WEEKLY) + OfFrequency(ss, MONTHLY) == []
  {
    if ss != [] {
      var s := ss[0];
      match s.frequency {
        case DAILY => assert s in OfFrequency(ss, DAILY);
        case WEEKLY => assert s in OfFrequency(ss, WEEKLY);
        case MONTHLY => assert s in OfFrequency(ss, MONTHLY);
      }
    }
  }

  /**
   * Selecting the active schedules of the due frequencies and then those of frequency `f`
   * gives the active schedules of `f` when it is due, and none otherwise.
   */
  lemma SelectedOfFrequency(ss: seq<ReportSchedule>, fs: seq<ReportFrequency>, now: DateTime, f: ReportFrequency)
    requires now.Valid()
    requires forall g :: g in fs <==> IsDue(now, g)
    ensures OfFrequency(Filter(ss, (s: ReportSchedule) => s.isActive && s.frequency in fs), f) == DueOf(ss, now, f)
  {
    var p := (s: ReportSchedule) => s.isActive && s.frequency in fs;
    var q := (s: ReportSchedule) => s.frequency == f;
    var pq := (s: ReportSchedule) => s.isActive && s.frequency == f && IsDue(now, f);
    FilterOfFilter(ss, p, q, pq);
    if IsDue(now, f) {
      FilterExt(ss, pq, (s: ReportSchedule) => s.isActive && s.frequency == f);
    } else {
      FilterNone(ss, pq);
    }
  }

  datatype RunSummary = RunSummary(schedulesProcessed: nat, emailResults: seq<EmailResult>)

  datatype CronResponse =
    | Unauthorized
    | NoSchedules(frequenciesChecked: seq<ReportFrequency>)
    | Ran(frequenciesRun: seq<ReportFrequency>, daily: Option<RunSummary>, weekly: Option<RunSummary>,
          monthly: Option<RunSummary>)

  /** The summary the combined route reports for one frequency, absent for an empty batch. */
  function SummaryOf(batch: seq<ReportSchedule>, start: nat, sent: (nat, string) -> bool): Option<RunSummary> {
    if batch == [] then None else Some(RunSummary(|batch|, Deliveries(Recipients(batch), start, sent)))
  }

  /** The log entry of the combined route's daily run, the first send being attempt `start`. */
  function DailyLog(ts: seq<Transaction>, tasks: seq<Task>, now: DateTime, batch: seq<ReportSchedule>,
                    start: nat, sent: (nat, string) -> bool): seq<ActivityLog>
    requires now.Valid()
  {
    ReportLog(batch, "daily", DailyMetadata(DailyReportOf(ts, tasks, Midnight(now.TimeValue())),
                                            Deliveries(Recipients(batch), start, sent)))
  }

  /** The log entry of the combined route's weekly run: the seven days before today. */
  function WeeklyLog(ts: seq<Transaction>, tasks: seq<Task>, now: DateTime, batch: seq<ReportSchedule>,
                     start: nat, sent: (nat, string) -> bool): seq<ActivityLog>
    requires now.Valid()
  {
    var today := Midnight(now.TimeValue());
    WeekLog(ts, tasks, SevenDaysBefore(today), today, batch, start, sent)
  }

  /** The log entry of a weekly run over the window `[lo, hi)`. */
  function WeekLog(ts: seq<Transaction>, tasks: seq<Task>, lo: int, hi: int, batch: seq<ReportSchedule>,
                   start: nat, sent: (nat, string) -> bool): seq<ActivityLog>
  {
    ReportLog(batch, "weekly", WeeklyMetadata(WeeklyReportOf(ts, tasks, lo, hi),
                                              Deliveries(Recipients(batch), start, sent)))
  }

  /** The log entry of the combined route's monthly run: the previous month. */
  function MonthlyLog(ts: seq<Transaction>, tasks: seq<Task>, now: DateTime, batch: seq<ReportSchedule>,
                      start: nat, sent: (nat, string) -> bool): seq<ActivityLog>
    requires now.Valid()
  {
    var p := PreviousMonth(now.year, now.month);
    ReportLog(batch, "monthly", MonthlyMetadata(
      MonthlyReportOf(ts, tasks, MonthStartTime(p), MonthStartTime(YearMonth(now.year, now.month)) - 1,
                      MonthStartTime(PreviousMonth(p.year, p.month)), MonthStartTime(p) - 1),
      Deliveries(Recipients(batch), start, sent)))
  }

  /** Stamping no schedules changes nothing. */
  lemma StampNone(ss: seq<ReportSchedule>, at: int)
    ensures StampRuns(ss, ScheduleIds([]), at) == ss
  {
  }

  /** The daily step of the combined route: run the daily report unless the batch is empty. */
  method RunDailyIfAny(db: Db, now: DateTime, batch: seq<ReportSchedule>, start: nat,
                       sent: (nat, string) -> bool, runAt: int)
    returns (run: Option<RunSummary>)
    requires now.Valid()
    modifies db`schedules, db`logs
    ensures run == SummaryOf(batch, start, sent)
    ensures db.schedules == StampRuns(old(db.schedules), ScheduleIds(batch), runAt)
    ensures db.logs == old(db.logs) + DailyLog(old(db.transactions), old(db.tasks), now, batch, start, sent)
  {
    if |batch| > 0 {
      var report, results := RunDailyReport(db, batch, now, start, sent, runAt);
      run := Some(RunSummary(|batch|, results));
    } else {
      StampNone(db.schedules, runAt);
      run := None;
    }
  }

  /**
   * `runWeeklyReport(schedules, now)` of the combined route: the report of the seven days
   * before today, with its deliveries, stamps and log entry.
   */
  method RunPreviousWeekReport(db: Db, batch: seq<ReportSchedule>, now: DateTime, start: nat,
                               sent: (nat, string) -> bool, runAt: int)
    returns (report: WeeklyReport, results: seq<EmailResult>)
    requires now.Valid()
    modifies db`schedules, db`logs
    ensures report == WeeklyReportOf(old(db.transactions), old(db.tasks),
                                     SevenDaysBefore(Midnight(now.TimeValue())), Midnight(now.TimeValue()))
    ensures results == Deliveries(Recipients(batch), start, sent)
    ensures db.schedules == StampRuns(old(db.schedules), ScheduleIds(batch), runAt)
    ensures db.logs == old(db.logs) + WeeklyLog(old(db.transactions), old(db.tasks), now, batch, start, sent)
  {
    var weekStart, weekEnd := PreviousSevenDays(now);
    report, results := RunWeeklyReport(db, batch, weekStart.TimeValue(), weekEnd.TimeValue(), start, sent, runAt);
  }

  /** The weekly step of the combined route. */
  method RunWeeklyIfAny(db: Db, now: DateTime, batch: seq<ReportSchedule>, start: nat,
                        sent: (nat, string) -> bool, runAt: int)
    returns (run: Option<RunSummary>)
    requires now.Valid()
    modifies db`schedules, db`logs
    ensures run == SummaryOf(batch, start, sent)
    ensures db.schedules == StampRuns(old(db.schedules), ScheduleIds(batch), runAt)
    ensures db.logs == old(db.logs) + WeeklyLog(old(db.transactions), old(db.tasks), now, batch, start, sent)
  {
    if |batch| > 0 {
      var report, results := RunPreviousWeekReport(db, batch, now, start, sent, runAt);
      run := Some(RunSummary(|batch|, results));
    } else {
      StampNone(db.schedules, runAt);
      run := None;
    }
  }

  /** The monthly step of the combined route. */
  method RunMonthlyIfAny(db: Db, now: DateTime, batch: seq<ReportSchedule>, start: nat,
                         sent: (nat, string) -> bool, runAt: int)
    returns (run: Option<RunSummary>)
    requires now.Valid()
    modifies db`schedules, db`logs
    ensures run == SummaryOf(batch, start, sent)
    ensures db.schedules == StampRuns(old(db.schedules), ScheduleIds(batch), runAt)
    ensures db.logs == old(db.logs) + MonthlyLog(old(db.transactions), old(db.tasks), now, batch, start, sent)
  {
    if |batch| > 0 {
      var monthStart, monthEnd, prevMonthStart, prevMonthEnd := PreviousMonthWindows(now);
      var p := PreviousMonth(now.year, now.month);
      var ms, me := MonthStartTime(p), MonthStartTime(YearMonth(now.year, now.month)) - 1;
      var ps, pe := MonthStartTime(PreviousMonth(p.year, p.month)), MonthStartTime(p) - 1;
      assert monthStart.TimeValue() == ms && monthEnd.TimeValue() == me;
      assert prevMonthStart.TimeValue() == ps && prevMonthEnd.TimeValue() == pe;
      var report, results := RunMonthlyReport(db, batch, ms, me, ps, pe, start, sent, runAt);
      run := Some(RunSummary(|batch|, results));
    } else {
      StampNone(db.schedules, runAt);
      run := None;
    }
  }

  /**
   * The log entries of one run of the combined route over the batches `daily`, `weekly` and
   * `monthly`, the email attempts numbered across the three.
   */
  function ScheduledLogs(ts: seq<Transaction>, tasks: seq<Task>, now: DateTime,
                         daily: seq<ReportSchedule>, weekly: seq<ReportSchedule>, monthly: seq<ReportSchedule>,
                         sent: (nat, string) -> bool): seq<ActivityLog>
    requires now.Valid()
  {
    DailyLog(ts, tasks, now, daily, 0, sent)
    + WeeklyLog(ts, tasks, now, weekly, |Recipients(daily)|, sent)
    + MonthlyLog(ts, tasks, now, monthly, |Recipients(daily + weekly)|, sent)
  }

  lemma AppendThree<T>(a: seq<T>, b: seq<T>, c: seq<T>, d: seq<T>)
    ensures a + b + c + d == a + (b + c + d)
  {
  }

  /** The three runs of the combined route, in order. */
  method RunDueReports(db: Db, now: DateTime, daily: seq<ReportSchedule>, weekly: seq<ReportSchedule>,
                       monthly: seq<ReportSchedule>, sent: (nat, string) -> bool, runAt: int)
    returns (dailyRun: Option<RunSummary>, weeklyRun: Option<RunSummary>, monthlyRun: Option<RunSummary>)
    requires now.Valid()
    modifies db`schedules, db`logs
    ensures dailyRun == SummaryOf(daily, 0, sent)
    ensures weeklyRun == SummaryOf(weekly, |Recipients(daily)|, sent)
    ensures monthlyRun == SummaryOf(monthly, |Recipients(daily + weekly)|, sent)
    ensures db.schedules == StampRuns(old(db.schedules), ScheduleIds(daily) + ScheduleIds(weekly) + ScheduleIds(monthly), runAt)
    ensures db.logs == old(db.logs) + ScheduledLogs(old(db.transactions), old(db.tasks), now, daily, weekly, monthly, sent)
  {
    var n1 := |Recipients(daily)|;
    var n2 := |Recipients(daily + weekly)|;
    ghost var ts, tasks := db.transactions, db.tasks;
    ghost var dl, wl, ml := DailyLog(ts, tasks, now, daily, 0, sent), WeeklyLog(ts, tasks, now, weekly, n1, sent),
                            MonthlyLog(ts, tasks, now, monthly, n2, sent);
    dailyRun := RunDailyIfAny(db, now, daily, 0, sent, runAt);
    ghost var l1 := db.logs;
    weeklyRun := RunWeeklyIfAny(db, now, weekly, n1, sent, runAt);
    StampRunsCompose(old(db.schedules), ScheduleIds(daily), ScheduleIds(weekly), runAt);
    ghost var l2 := db.logs;
    monthlyRun := RunMonthlyIfAny(db, now, monthly, n2, sent, runAt);
    StampRunsCompose(old(db.schedules), ScheduleIds(daily) + ScheduleIds(weekly), ScheduleIds(monthly), runAt);
    assert l1 == old(db.logs) + dl && l2 == l1 + wl && db.logs == l2 + ml;
    assert ScheduledLogs(ts, tasks, now, daily, weekly, monthly, sent) == dl + wl + ml;
    AppendThree(old(db.logs), dl, wl, ml);
  }

  /**
   * The schedules the combined route reads: the active ones of the frequencies due today,
   * and those split by frequency. The split is exactly the due schedules of each frequency,
   * and the selection is empty exactly when all three are.
   */
  method DueSchedules(ss: seq<ReportSchedule>, now: DateTime)
    returns (fs: seq<ReportFrequency>, schedules: seq<ReportSchedule>, daily: seq<ReportSchedule>,
             weekly: seq<ReportSchedule>, monthly: seq<ReportSchedule>)
    requires now.Valid()
    ensures forall g :: g in fs <==> IsDue(now, g)
    ensures daily == DueOf(ss, now, DAILY) && weekly == DueOf(ss, now, WEEKLY) && monthly == DueOf(ss, now, MONTHLY)
    ensures |schedules| == 0 <==> daily + weekly + monthly == []
  {
    fs := FrequenciesToRun(now);
    assert forall g :: g in fs <==> IsDue(now, g);
    schedules := Filter(ss, (s: ReportSchedule) => s.isActive && s.frequency in fs);
    daily, weekly, monthly := OfFrequency(schedules, DAILY), OfFrequency(schedules, WEEKLY), OfFrequency(schedules, MONTHLY);
    SelectedOfFrequency(ss, fs, now, DAILY);
    SelectedOfFrequency(ss, fs, now, WEEKLY);
    SelectedOfFrequency(ss, fs, now, MONTHLY);
    NoneOfAnyFrequency(schedules);
  }

  /**
   * POST of the combined cron route. Without the secret it answers 401 and changes
   * nothing. Otherwise it reads the active schedules of the frequencies due today; with none
   * it answers with the frequencies it checked and changes nothing, and with some it runs
   * the daily report, the weekly one on Mondays and the monthly one on the first of the
   * month, each for the schedules of its frequency.
   */
  method RunScheduled(db: Db, authHeader: Option<string>, cronSecret: Option<string>, now: DateTime,
                      sent: (nat, string) -> bool, runAt: int)
    returns (resp: CronResponse)
    requires now.Valid()
    modifies db`schedules, db`logs
    ensures !Authorized(authHeader, cronSecret) <==> resp == Unauthorized
    ensures resp.Unauthorized? || resp.NoSchedules? ==> db.schedules == old(db.schedules) && db.logs == old(db.logs)
    ensures resp.NoSchedules? <==> (Authorized(authHeader, cronSecret) &&
      DueOf(old(db.schedules), now, DAILY) + DueOf(old(db.schedules), now, WEEKLY) + DueOf(old(db.schedules), now, MONTHLY) == [])
    ensures resp.NoSchedules? ==> forall g :: g in resp.frequenciesChecked <==> IsDue(now, g)
    ensures resp.Ran? ==>
      var daily, weekly, monthly :=
        DueOf(old(db.schedules), now, DAILY), DueOf(old(db.schedules), now, WEEKLY), DueOf(old(db.schedules), now, MONTHLY);
      && (forall g :: g in resp.frequenciesRun <==> IsDue(now, g))
      && resp.daily == SummaryOf(daily, 0, sent)
      && resp.weekly == SummaryOf(weekly, |Recipients(daily)|, sent)
      && resp.monthly == SummaryOf(monthly, |Recipients(daily + weekly)|, sent)
      && db.schedules == StampRuns(old(db.schedules), ScheduleIds(daily) + ScheduleIds(weekly) + ScheduleIds(monthly), runAt)
      && db.logs == old(db.logs) + ScheduledLogs(old(db.transactions), old(db.tasks), now, daily, weekly, monthly, sent)
  {
    if !Authorized(authHeader, cronSecret) {
      return Unauthorized;
    }
    var fs, schedules, dailySchedules, weeklySchedules, monthlySchedules := DueSchedules(db.schedules, now);
    if |schedules| == 0 {
      return NoSchedules(fs);
    }
    var dailyRun, weeklyRun, monthlyRun := RunDueReports(db, now, dailySchedules, weeklySchedules, monthlySchedules, sent, runAt);
    resp := Ran(fs, dailyRun, weeklyRun, monthlyRun);
  }

  // ---------------------------------------------------------------------------------------
  // The single-report routes.

  datatype ReportResponse<R> =
    | ReportUnauthorized
    | ReportSent(reportData: R, emailResults: seq<EmailResult>, schedulesProcessed: nat)

  /**
   * POST of the daily route: 401 without the secret; otherwise today's report, mailed to
   * every recipient of the active DAILY schedules.
   */
  method DailyReportRoute(db: Db, authHeader: Option<string>, cronSecret: Option<string>, now: DateTime,
                          sent: (nat, string) -> bool, runAt: int)
    returns (resp: ReportResponse<DailyReport>)
    requires now.Valid()
    modifies db`schedules, db`logs
    ensures !Authorized(authHeader, cronSecret) <==> resp.ReportUnauthorized?
    ensures resp.ReportUnauthorized? ==> db.schedules == old(db.schedules) && db.logs == old(db.logs)
    ensures resp.ReportSent? ==>
      var batch := ActiveOf(old(db.schedules), DAILY);
      && resp.reportData == DailyReportOf(old(db.transactions), old(db.tasks), Midnight(now.TimeValue()))
      && resp.emailResults == Deliveries(Recipients(batch), 0, sent)
      && resp.schedulesProcessed == |batch|
      && db.schedules == StampRuns(old(db.schedules), ScheduleIds(batch), runAt)
      && db.logs == old(db.logs) + ReportLog(batch, "daily", DailyMetadata(resp.reportData, resp.emailResults))
  {
    if !Authorized(authHeader, cronSecret) {
      return ReportUnauthorized;
    }
    var schedules := ActiveOf(db.schedules, DAILY);
    var report, results := RunDailyReport(db, schedules, now, 0, sent, runAt);
    resp := ReportSent(report, results, |schedules|);
  }

  /**
   * POST of the weekly route: 401 without the secret; otherwise the report of the week
   * from Monday 00:00, mailed to every recipient of the active WEEKLY schedules.
   */
  method WeeklyReportRoute(db: Db, authHeader: Option<string>, cronSecret: Option<string>, now: DateTime,
                           sent: (nat, string) -> bool, runAt: int)
    returns (resp: ReportResponse<WeeklyReport>)
    requires now.Valid()
    modifies db`schedules, db`logs
    ensures !Authorized(authHeader, cronSecret) <==> resp.ReportUnauthorized?
    ensures resp.ReportUnauthorized? ==> db.schedules == old(db.schedules) && db.logs == old(db.logs)
    ensures resp.ReportSent? ==>
      var batch := ActiveOf(old(db.schedules), WEEKLY);
      var r := resp.reportData;
      && WeekDay(r.weekStart) == 1
      && r.weekStart == Midnight(r.weekStart)
      && Day(r.weekStart) <= Day(now.TimeValue()) <= Day(r.weekStart) + 6
      && r.weekEnd == r.weekStart + 7 * MsPerDay
      && r == WeeklyReportOf(old(db.transactions), old(db.tasks), r.weekStart, r.weekEnd)
      && resp.emailResults == Deliveries(Recipients(batch), 0, sent)
      && resp.schedulesProcessed == |batch|
      && db.schedules == StampRuns(old(db.schedules), ScheduleIds(batch), runAt)
      && db.logs == old(db.logs) + ReportLog(batch, "weekly", WeeklyMetadata(r, resp.emailResults))
  {
    if !Authorized(authHeader, cronSecret) {
      return ReportUnauthorized;
    }
    var weekStart, weekEnd := MondayWeek(now);
    var schedules := ActiveOf(db.schedules, WEEKLY);
    var report, results := RunWeeklyReport(db, schedules, weekStart.TimeValue(), weekEnd.TimeValue(), 0, sent, runAt);
    resp := ReportSent(report, results, |schedules|);
  }

  /**
   * POST of the monthly route: 401 without the secret; otherwise the report of the current
   * month with the previous month's net, mailed to every recipient of the active MONTHLY
   * schedules.
   */
  method MonthlyReportRoute(db: Db, authHeader: Option<string>, cronSecret: Option<string>, now: DateTime,
                            sent: (nat, string) -> bool, runAt: int)
    returns (resp: ReportResponse<MonthlyReport>)
    requires now.Valid()
    modifies db`schedules, db`logs
    ensures !Authorized(authHeader, cronSecret) <==> resp.ReportUnauthorized?
    ensures resp.ReportUnauthorized? ==> db.schedules == old(db.schedules) && db.logs == old(db.logs)
    ensures resp.ReportSent? ==>
      var batch := ActiveOf(old(db.schedules), MONTHLY);
      var ms := MonthStartTime(YearMonth(now.year, now.month));
      var p := PreviousMonth(now.year, now.month);
      var r := resp.reportData;
      && r.monthStart == ms
      && r.monthEnd == ms + DaysInMonth(now.year, now.month) * MsPerDay - 1
      && r == MonthlyReportOf(old(db.transactions), old(db.tasks), r.monthStart, r.monthEnd, MonthStartTime(p), ms - 1)
      && resp.emailResults == Deliveries(Recipients(batch), 0, sent)
      && resp.schedulesProcessed == |batch|
      && db.schedules == StampRuns(old(db.schedules), ScheduleIds(batch), runAt)
      && db.logs == old(db.logs) + ReportLog(batch, "monthly", MonthlyMetadata(resp.reportData, resp.emailResults))
  {
    if !Authorized(authHeader, cronSecret) {
      return ReportUnauthorized;
    }
    var monthStart, monthEnd, prevMonthStart, prevMonthEnd := CurrentMonthWindows(now);
    var lo, hi, prevLo, prevHi := monthStart.TimeValue(), monthEnd.TimeValue(), prevMonthStart.TimeValue(), prevMonthEnd.TimeValue();
    var ms := MonthStartTime(YearMonth(now.year, now.month));
    var schedules := ActiveOf(db.schedules, MONTHLY);
    var report, results := RunMonthlyReport(db, schedules, lo, hi, prevLo, prevHi, 0, sent, runAt);
    resp := ReportSent(report, results, |schedules|);
  }
}
