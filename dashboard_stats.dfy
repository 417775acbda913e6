/**
 * `GET /api/dashboard/stats`: the all-time income, expense and net profit, the number of
 * open tasks, the income and expense of each of the last twelve months, the five open tasks
 * due soonest and the ten newest activity-log entries.
 *
 * The monthly figures are built the way the route builds them: a `Map` keyed `YYYY-MM` is
 * first filled with twelve zero entries, oldest month first, and then every transaction
 * since the first of the oldest month adds its amount to the entry of its own month, if
 * there is one.
 */
module DashboardStats {
  import opened Common
  import opened Domain
  import opened Calendar
  import opened Text
  import opened Sorting
  import opened ReportData
  import opened Store
  import opened Validation
  import opened Http

  // ---------------------------------------------------------------- month keys

  /** `` `${getFullYear()}-${String(getMonth() + 1).padStart(2, "0")}` ``. */
  function MonthKey(ym: YearMonth): (key: string)
    requires ym.Valid()
    ensures |key| >= 4 && key[|key| - 3] == '-'
  {
    MonthDigits(ym.month + 1);
    IntToString(ym.year) + "-" + PadStart(NatToDigits(ym.month + 1), 2, '0')
  }

  /** A month number from 1 to 12 is written with exactly two digits, read back as itself. */
  lemma MonthDigits(k: nat)
    requires 1 <= k <= 12
    ensures var p := PadStart(NatToDigits(k), 2, '0');
      |p| == 2 && AllDigits(p) && DigitsValue(p) == k
  {
    var d := NatToDigits(k);
    DigitsRoundTrip(k);
    if k >= 10 {
      assert d == NatToDigits(k / 10) + [DigitChar(k % 10)];
    } else {
      LeadingZerosValue(1, d);
      assert PadStart(d, 2, '0') == Repeat('0', 1) + d;
    }
  }

  /** Different months have different keys. */
  lemma MonthKeyInjective(a: YearMonth, b: YearMonth)
    requires a.Valid() && b.Valid() && MonthKey(a) == MonthKey(b)
    ensures a == b
  {
    var pa := PadStart(NatToDigits(a.month + 1), 2, '0');
    var pb := PadStart(NatToDigits(b.month + 1), 2, '0');
    MonthDigits(a.month + 1);
    MonthDigits(b.month + 1);
    SplitAtSuffix(IntToString(a.year), pa, IntToString(b.year), pb);
    IntToStringInjective(a.year, b.year);
  }

  lemma SplitAtSuffix(x1: string, s1: string, x2: string, s2: string)
    requires x1 + "-" + s1 == x2 + "-" + s2 && |s1| == |s2|
    ensures x1 == x2 && s1 == s2
  {
    var k := x1 + "-" + s1;
    assert k[..|x1|] == x1;
    assert k[|k| - |s1|..] == s1;
    assert |x1| == |x2|;
    assert k[..|x2|] == x2;
    assert k[|k| - |s2|..] == s2;
  }

  /** `new Date(y, m, 1)` for different month offsets `m` of the same year lands on different months. */
  lemma NormalizeInjective(y: int, a: int, b: int)
    requires Normalize(y, a) == Normalize(y, b)
    ensures a == b
  {
    assert a == 12 * (a / 12) + a % 12;
    assert b == 12 * (b / 12) + b % 12;
  }

  /** Month `i` of the chart, `i = 11` being the current month and `i = 0` eleven months before it. */
  function ChartMonth(now: DateTime, i: int): (ym: YearMonth)
    ensures ym.Valid()
  {
    Normalize(now.year, now.month - (11 - i))
  }

  /** The keys of the twelve chart months, oldest first. */
  function ChartKeys(now: DateTime): (keys: seq<string>)
    ensures |keys| == 12
  {
    seq(12, i requires 0 <= i < 12 => MonthKey(ChartMonth(now, i)))
  }

  /** The twelve keys are all different. */
  lemma ChartKeysDistinct(now: DateTime)
    ensures Distinct(ChartKeys(now))
  {
    forall i, j | 0 <= i < j < 12 ensures ChartKeys(now)[i] != ChartKeys(now)[j] {
      if ChartKeys(now)[i] == ChartKeys(now)[j] {
        MonthKeyInjective(ChartMonth(now, i), ChartMonth(now, j));
        NormalizeInjective(now.year, now.month - (11 - i), now.month - (11 - j));
      }
    }
  }

  /**
   * The key of the month a transaction's date falls in, from the date's getters. A date
   * read back from the database has in-range fields (`Valid`), for which `Normalize`
   * changes nothing.
   */
  function TxMonthKey(t: Transaction): string {
    MonthKey(Normalize(t.date.year, t.date.month))
  }

  // ---------------------------------------------------------------- the monthly figures

  /** `twelveMonthsAgo`: midnight on the first of the oldest chart month. */
  function ChartStart(now: DateTime): int {
    MakeDate(MakeDay(now.year, now.month - 11, 1), 0)
  }

  /** Midnight on the first of the month after the current one, where the last chart month ends. */
  function ChartEnd(now: DateTime): int {
    MakeDate(MakeDay(now.year, now.month + 1, 1), 0)
  }

  /**
   * The two readings of a stored date agree: its month key is one of the twelve chart keys
   * exactly when its time value lies from `twelveMonthsAgo` up to the end of the current month.
   */
  lemma ChartMonthIffWindow(t: Transaction, now: DateTime)
    requires t.date.Valid()
    ensures TxMonthKey(t) in ChartKeys(now) <==> ChartStart(now) <= t.date.TimeValue() < ChartEnd(now)
  {
    KeyInChart(t.date, now);
    TimeInChart(t.date, now);
  }

  /** The month key of a valid date is a chart key exactly when its month is one of the twelve chart months. */
  lemma KeyInChart(d: DateTime, now: DateTime)
    requires d.Valid()
    ensures var s := 12 * now.year + now.month - 11;
      MonthKey(Normalize(d.year, d.month)) in ChartKeys(now) <==> s <= 12 * d.year + d.month < s + 12
  {
    var s := 12 * now.year + now.month - 11;
    var o := 12 * d.year + d.month;
    var ym := Normalize(d.year, d.month);
    assert ym == Normalize(0, o) by {
      NormalizeByIndex(d.year, d.month);
    }
    if s <= o < s + 12 {
      ChartMonthIndex(now, o - s);
      assert ChartKeys(now)[o - s] == MonthKey(ym);
    }
    if MonthKey(ym) in ChartKeys(now) {
      var i :| 0 <= i < 12 && ChartKeys(now)[i] == MonthKey(ym);
      ChartKeyMonth(now, i, o);
    }
  }

  /** A chart key names the chart month it was made from. */
  lemma ChartKeyMonth(now: DateTime, i: int, o: int)
    requires 0 <= i < 12 && ChartKeys(now)[i] == MonthKey(Normalize(0, o))
    ensures o == 12 * now.year + now.month - 11 + i
  {
    ChartMonthIndex(now, i);
    MonthKeyInjective(ChartMonth(now, i), Normalize(0, o));
    NormalizeInjective(0, 12 * now.year + now.month - 11 + i, o);
  }

  /** Chart month `i` is the month `12 * now.year + now.month - 11 + i` counted from January of year 0. */
  lemma ChartMonthIndex(now: DateTime, i: int)
    ensures ChartMonth(now, i) == Normalize(0, 12 * now.year + now.month - 11 + i)
  {
    NormalizeByIndex(now.year, now.month - (11 - i));
  }

  /** The time value of a valid date lies in the chart's window exactly when its month is one of the twelve chart months. */
  lemma TimeInChart(d: DateTime, now: DateTime)
    requires d.Valid()
    ensures var s := 12 * now.year + now.month - 11;
      ChartStart(now) <= d.TimeValue() < ChartEnd(now) <==> s <= 12 * d.year + d.month < s + 12
  {
    var s := 12 * now.year + now.month - 11;
    NormalizeByIndex(now.year, now.month - 11);
    NormalizeByIndex(now.year, now.month + 1);
    assert ChartStart(now) == MakeDate(MakeDay(0, s, 1), 0);
    assert ChartEnd(now) == MakeDate(MakeDay(0, s + 12, 1), 0);
    OnOrAfterFirst(d.year, d.month, d.date, s);
    OnOrAfterFirst(d.year, d.month, d.date, s + 12);
    OnOrAfterMidnight(MakeDay(0, s, 1), d);
    OnOrAfterMidnight(MakeDay(0, s + 12, 1), d);
  }

  /** The transactions the route reads for the chart: those dated on or after `twelveMonthsAgo`. */
  function SinceChartStart(txs: seq<Transaction>, now: DateTime): (r: seq<Transaction>)
    ensures forall t :: t in r <==> t in txs && ChartStart(now) <= t.date.TimeValue()
  {
    var r := Filter(txs, (t: Transaction) => ChartStart(now) <= t.date.TimeValue());
    assert forall t :: t in txs && ChartStart(now) <= t.date.TimeValue() ==> t in r by {
      forall t | t in txs && ChartStart(now) <= t.date.TimeValue() ensures t in r {
        var i :| 0 <= i < |txs| && txs[i] == t;
      }
    }
    r
  }

  /**
   * The summed amounts of the transactions of type `ty` whose month has key `key`, where
   * `keyOf` gives the key of a transaction's month (`TxMonthKey` in the route).
   */
  function MonthTotal(ts: seq<Transaction>, keyOf: Transaction -> string, key: string, ty: TransactionType): int {
    if ts == [] then 0
    else
      var t := ts[|ts| - 1];
      MonthTotal(ts[..|ts| - 1], keyOf, key, ty) + (if keyOf(t) == key && t.txType == ty then t.amount else 0)
  }

  /** One entry of `monthlyData`. */
  datatype MonthBucket = MonthBucket(month: string, income: int, expense: int)

  /**
   * `map.set(key, value)` on the entries of a `Map`, kept in insertion order: an existing
   * key keeps its place and takes the new value, a new key goes last.
   */
  function MapSet(data: seq<MonthBucket>, b: MonthBucket): (r: seq<MonthBucket>)
    ensures (forall i :: 0 <= i < |data| ==> data[i].month != b.month) ==> r == data + [b]
    ensures (exists i :: 0 <= i < |data| && data[i].month == b.month) ==>
      |r| == |data| && exists i :: 0 <= i < |data| && data[i].month == b.month && r == data[i := b]
  {
    var found := IndexWhere(data, (x: MonthBucket) => x.month == b.month);
    if found.None? then data + [b] else data[found.value := b]
  }

  /** The entry the chart shows for month `key`, given the transactions `ts`. */
  function Bucket(ts: seq<Transaction>, keyOf: Transaction -> string, key: string): MonthBucket {
    MonthBucket(key, MonthTotal(ts, keyOf, key, INCOME), MonthTotal(ts, keyOf, key, EXPENSE))
  }

  /** `monthData.income += amount` for income, `monthData.expense += amount` otherwise. */
  function Credit(b: MonthBucket, t: Transaction): (r: MonthBucket)
    ensures r.month == b.month
    ensures r.income + r.expense == b.income + b.expense + t.amount
  {
    if t.txType == INCOME then b.(income := b.income + t.amount) else b.(expense := b.expense + t.amount)
  }

  /** One more transaction credits the entry of its own month and leaves every other entry as it was. */
  lemma BucketSnoc(ts: seq<Transaction>, keyOf: Transaction -> string, t: Transaction, key: string)
    ensures Bucket(ts + [t], keyOf, key) == if keyOf(t) == key then Credit(Bucket(ts, keyOf, key), t) else Bucket(ts, keyOf, key)
  {
    assert (ts + [t])[..|ts|] == ts;
  }

  /** "Initialize all 12 months": one zero entry per key, in order, set one after the other. */
  method ZeroEntries(keys: seq<string>) returns (data: seq<MonthBucket>)
    requires Distinct(keys)
    ensures |data| == |keys|
    ensures forall j :: 0 <= j < |keys| ==> data[j] == MonthBucket(keys[j], 0, 0)
  {
    data := [];
    for i := 0 to |keys|
      invariant |data| == i
      invariant forall j :: 0 <= j < i ==> data[j] == MonthBucket(keys[j], 0, 0)
    {
      assert forall j :: 0 <= j < i ==> data[j].month != keys[i];
      data := MapSet(data, MonthBucket(keys[i], 0, 0));
    }
  }

  /**
   * "Populate with actual data": each transaction in turn credits the entry of its month,
   * found with `map.get`; a transaction whose month has no entry changes nothing.
   */
  method Populate(keys: seq<string>, zero: seq<MonthBucket>, recent: seq<Transaction>, keyOf: Transaction -> string) returns (data: seq<MonthBucket>)
    requires Distinct(keys) && |zero| == |keys|
    requires forall j :: 0 <= j < |keys| ==> zero[j] == MonthBucket(keys[j], 0, 0)
    ensures |data| == |keys|
    ensures forall j :: 0 <= j < |keys| ==> data[j] == Bucket(recent, keyOf, keys[j])
  {
    data := zero;
    for k := 0 to |recent|
      invariant |data| == |keys|
      invariant forall j :: 0 <= j < |keys| ==> data[j] == Bucket(recent[..k], keyOf, keys[j])
    {
      var t := recent[k];
      var key := keyOf(t);
      var found := IndexWhere(data, (b: MonthBucket) => b.month == key);
      ghost var before := data;
      if found.Some? {
        data := data[found.value := Credit(data[found.value], t)];
      }
      assert recent[..k + 1] == recent[..k] + [t];
      forall j | 0 <= j < |keys| ensures data[j] == Bucket(recent[..k + 1], keyOf, keys[j]) {
        BucketSnoc(recent[..k], keyOf, t, keys[j]);
        if found.Some? && j == found.value {
          assert keys[j] == key;
        } else if found.Some? {
          assert keys[found.value] == key;
          assert keys[j] != key;
          assert data[j] == before[j];
        } else {
          assert before[j].month != key;
        }
      }
    }
    assert recent[..|recent|] == recent;
  }

  /**
   * `monthlyData`: the twelve chart months, oldest first, each with the income and the
   * expense of the transactions since `twelveMonthsAgo` that fall in it. A transaction
   * whose month is not one of the twelve (one dated after the current month, as
   * `ChartMonthIffWindow` shows) is left out.
   */
  method MonthlyData(txs: seq<Transaction>, now: DateTime) returns (data: seq<MonthBucket>)
    requires GetterDates(txs)
    ensures |data| == 12
    ensures forall i :: 0 <= i < 12 ==>
      var key := ChartKeys(now)[i];
      var recent := SinceChartStart(txs, now);
      data[i] == MonthBucket(key, MonthTotal(recent, TxMonthKey, key, INCOME), MonthTotal(recent, TxMonthKey, key, EXPENSE))
  {
    var keys := ChartKeys(now);
    ChartKeysDistinct(now);
    var zero := ZeroEntries(keys);
    data := Populate(keys, zero, SinceChartStart(txs, now), TxMonthKey);
  }

  /** The summed `MonthTotal` of a list of keys. */
  function KeysTotal(ts: seq<Transaction>, keyOf: Transaction -> string, keys: seq<string>, ty: TransactionType): int {
    if keys == [] then 0 else KeysTotal(ts, keyOf, keys[..|keys| - 1], ty) + MonthTotal(ts, keyOf, keys[|keys| - 1], ty)
  }

  /** One more transaction adds its amount to the total of distinct keys exactly once, if its key is among them. */
  lemma {:induction false} KeysTotalSnoc(ts: seq<Transaction>, keyOf: Transaction -> string, t: Transaction, keys: seq<string>, ty: TransactionType)
    requires Distinct(keys)
    ensures KeysTotal(ts + [t], keyOf, keys, ty) ==
      KeysTotal(ts, keyOf, keys, ty) + (if t.txType == ty && keyOf(t) in keys then t.amount else 0)
  {
    assert (ts + [t])[..|ts|] == ts;
    if keys != [] {
      var init := keys[..|keys| - 1];
      assert Distinct(init);
      KeysTotalSnoc(ts, keyOf, t, init, ty);
      assert keys == init + [keys[|keys| - 1]];
      assert keyOf(t) in keys <==> keyOf(t) in init || keyOf(t) == keys[|keys| - 1];
    }
  }

  /**
   * Nothing is counted twice and nothing is lost: when every transaction falls in one of
   * a list of distinct months, the month totals add up to the total of the type.
   */
  lemma {:induction false} MonthTotalsAddUp(ts: seq<Transaction>, keyOf: Transaction -> string, keys: seq<string>, ty: TransactionType)
    requires Distinct(keys)
    requires forall t :: t in ts ==> keyOf(t) in keys
    ensures KeysTotal(ts, keyOf, keys, ty) == TypeTotal(ts, ty)
  {
    if ts == [] {
      KeysTotalEmpty(keyOf, keys, ty);
    } else {
      var init := ts[..|ts| - 1];
      assert ts == init + [ts[|ts| - 1]];
      MonthTotalsAddUp(init, keyOf, keys, ty);
      KeysTotalSnoc(init, keyOf, ts[|ts| - 1], keys, ty);
    }
  }

  lemma {:induction false} KeysTotalEmpty(keyOf: Transaction -> string, keys: seq<string>, ty: TransactionType)
    ensures KeysTotal([], keyOf, keys, ty) == 0
  {
    if keys != [] {
      KeysTotalEmpty(keyOf, keys[..|keys| - 1], ty);
    }
  }

  /**
   * When no transaction since `twelveMonthsAgo` is dated after the current month, the
   * chart accounts for every one of them: the twelve incomes add up to their total income,
   * and the twelve expenses to their total expense.
   */
  lemma ChartAccountsForAll(txs: seq<Transaction>, now: DateTime, ty: TransactionType)
    requires forall t :: t in SinceChartStart(txs, now) ==> TxMonthKey(t) in ChartKeys(now)
    ensures KeysTotal(SinceChartStart(txs, now), TxMonthKey, ChartKeys(now), ty) == TypeTotal(SinceChartStart(txs, now), ty)
  {
    ChartKeysDistinct(now);
    MonthTotalsAddUp(SinceChartStart(txs, now), TxMonthKey, ChartKeys(now), ty);
  }

  /**
   * With stored dates read through their getters, the condition of `ChartAccountsForAll` is a
   * condition on time: when nothing is dated after the end of the current month, the twelve
   * months account for every transaction since `twelveMonthsAgo`.
   */
  lemma ChartCoversWindow(txs: seq<Transaction>, now: DateTime, ty: TransactionType)
    requires GetterDates(txs)
    requires forall t :: t in txs ==> t.date.TimeValue() < ChartEnd(now)
    ensures KeysTotal(SinceChartStart(txs, now), TxMonthKey, ChartKeys(now), ty) == TypeTotal(SinceChartStart(txs, now), ty)
  {
    forall t | t in SinceChartStart(txs, now) ensures TxMonthKey(t) in ChartKeys(now) {
      ChartMonthIffWindow(t, now);
    }
    ChartAccountsForAll(txs, now, ty);
  }

  // ---------------------------------------------------------------- open tasks

  /** `status: { not: DONE }`. */
  predicate Open(t: Task) {
    t.status != DONE
  }

  /** `activeTaskCount` counts exactly the tasks that are not DONE. */
  lemma {:induction false} OpenCount(ts: seq<Task>)
    ensures |Filter(ts, Open)| == |ts| - CountStatus(ts, DONE)
  {
    if ts != [] {
      OpenCount(ts[..|ts| - 1]);
    }
  }

  /** The upcoming-tasks query: open tasks that have a due date. */
  predicate Pending(t: Task) {
    t.status != DONE && t.dueDate.Some?
  }

  /** The time value of a task's due date, as `dueTime` reads the stored date (0 when there is none). */
  function DueTime(t: Task, dueTime: string -> int): int {
    if t.dueDate.Some? then dueTime(t.dueDate.value) else 0
  }

  /** `orderBy: { dueDate: "asc" }`. */
  function DueOrder(dueTime: string -> int): (Task, Task) -> bool {
    (a: Task, b: Task) => DueTime(a, dueTime) <= DueTime(b, dueTime)
  }

  lemma DueOrderTotal(dueTime: string -> int)
    ensures IsTotalPreorder(DueOrder(dueTime))
  {
  }

  /** `take: 5` of the pending tasks, soonest due date first. */
  function Soonest(tasks: seq<Task>, dueTime: string -> int): seq<Task> {
    TakeAtMost(SortBy(Filter(tasks, Pending), DueOrder(dueTime)), 5)
  }

  /**
   * The upcoming tasks are at most five pending tasks, soonest first; a pending task left
   * out is due no earlier than any of them, and is left out only when five are shown.
   */
  lemma SoonestSpec(tasks: seq<Task>, dueTime: string -> int)
    ensures var r := Soonest(tasks, dueTime);
      && |r| <= 5
      && (forall t :: t in r ==> t in tasks && Pending(t))
      && SortedBy(r, DueOrder(dueTime))
      && (forall u :: u in tasks && Pending(u) && u !in r ==>
            |r| == 5 && forall i :: 0 <= i < 5 ==> DueTime(r[i], dueTime) <= DueTime(u, dueTime))
  {
    var picked := Filter(tasks, Pending);
    var sorted := SortBy(picked, DueOrder(dueTime));
    var r := TakeAtMost(sorted, 5);
    DueOrderTotal(dueTime);
    SortBySorted(picked, DueOrder(dueTime));
    forall t | t in r ensures t in tasks && Pending(t) {
      assert t in multiset(sorted);
      assert t in picked;
    }
    forall u | u in tasks && Pending(u) && u !in r
      ensures |r| == 5 && forall i :: 0 <= i < 5 ==> DueTime(r[i], dueTime) <= DueTime(u, dueTime)
    {
      var m :| 0 <= m < |tasks| && tasks[m] == u;
      assert u in picked;
      assert u in multiset(sorted);
      var k :| 0 <= k < |sorted| && sorted[k] == u;
      assert r == sorted[..|r|];
      assert k >= |r|;
      forall i | 0 <= i < 5 ensures DueTime(r[i], dueTime) <= DueTime(u, dueTime) {
        assert DueOrder(dueTime)(sorted[i], sorted[k]);
      }
    }
  }

  // ---------------------------------------------------------------- the response rows

  /** The user with a given id, if there is one. */
  function FindUser(users: seq<User>, id: string): (r: Option<User>)
    ensures r.None? <==> forall i :: 0 <= i < |users| ==> users[i].id != id
    ensures r.Some? ==> r.value in users && r.value.id == id
  {
    var k := IndexWhere(users, (u: User) => u.id == id);
    if k.None? then None else Some(users[k.value])
  }

  /** The project with a given id, if there is one. */
  function FindProject(projects: seq<Project>, id: string): (r: Option<Project>)
    ensures r.None? <==> forall i :: 0 <= i < |projects| ==> projects[i].id != id
    ensures r.Some? ==> r.value in projects && r.value.id == id
  {
    var k := IndexWhere(projects, (p: Project) => p.id == id);
    if k.None? then None else Some(projects[k.value])
  }

  /** One entry of `upcomingTasks`. */
  datatype UpcomingTask = UpcomingTask(id: string, title: string, dueDate: string, status: TaskStatus,
                                       priority: TaskPriority, assigneeName: Option<string>, projectName: string)

  /** `task.assignee?.name || null`: the assignee's name, null when there is none or it is empty. */
  function AssigneeName(users: seq<User>, t: Task): (r: Option<string>)
    ensures r.Some? ==> r.value != "" && t.assigneeId.Some? && exists u :: u in users && u.id == t.assigneeId.value && u.name == r.value
  {
    if t.assigneeId.None? then None
    else
      var u := FindUser(users, t.assigneeId.value);
      if u.Some? && u.value.name != "" then Some(u.value.name) else None
  }

  /**
   * The `upcomingTasks` rows. `task.project.name` throws when a task's project is missing,
   * which fails the whole route: then there are no rows (None).
   */
  function UpcomingRows(ts: seq<Task>, users: seq<User>, projects: seq<Project>): (r: Option<seq<UpcomingTask>>)
    ensures r.Some? <==> forall i :: 0 <= i < |ts| ==> FindProject(projects, ts[i].projectId).Some?
    ensures r.Some? ==> |r.value| == |ts| && forall i :: 0 <= i < |ts| ==>
      && r.value[i].id == ts[i].id && r.value[i].title == ts[i].title
      && r.value[i].status == ts[i].status && r.value[i].priority == ts[i].priority
      && r.value[i].dueDate == ts[i].dueDate.GetOr("")
      && r.value[i].assigneeName == AssigneeName(users, ts[i])
      && r.value[i].projectName == FindProject(projects, ts[i].projectId).value.name
  {
    if ts == [] then Some([])
    else
      var p := FindProject(projects, ts[0].projectId);
      var rest := UpcomingRows(ts[1..], users, projects);
      if p.None? || rest.None? then None
      else
        var t := ts[0];
        Some([UpcomingTask(t.id, t.title, t.dueDate.GetOr(""), t.status, t.priority, AssigneeName(users, t), p.value.name)] + rest.value)
  }

  /** One entry of `recentActivities`. */
  datatype RecentActivity = RecentActivity(action: string, entityType: string, entityId: string, userName: string)

  /** `take: 10` of the activity log, newest first. */
  function Newest(logs: seq<ActivityLog>): (r: seq<ActivityLog>)
    ensures |r| <= 10 && |r| <= |logs|
    ensures forall i :: 0 <= i < |r| ==> r[i] == logs[|logs| - 1 - i]
  {
    TakeAtMost(Reversed(logs), 10)
  }

  /**
   * The `recentActivities` rows. `activity.user.name` throws when an entry's user is
   * missing, which fails the whole route: then there are no rows (None).
   */
  function RecentRows(logs: seq<ActivityLog>, users: seq<User>): (r: Option<seq<RecentActivity>>)
    ensures r.Some? <==> forall i :: 0 <= i < |logs| ==> FindUser(users, logs[i].userId).Some?
    ensures r.Some? ==> |r.value| == |logs| && forall i :: 0 <= i < |logs| ==>
      r.value[i] == RecentActivity(logs[i].action, logs[i].entityType, logs[i].entityId, FindUser(users, logs[i].userId).value.name)
  {
    if logs == [] then Some([])
    else
      var u := FindUser(users, logs[0].userId);
      var rest := RecentRows(logs[1..], users);
      if u.None? || rest.None? then None
      else
        var e := logs[0];
        Some([RecentActivity(e.action, e.entityType, e.entityId, u.value.name)] + rest.value)
  }

  // ---------------------------------------------------------------- the route

  datatype Stats = Stats(
    totalIncome: int,
    totalExpense: int,
    netProfit: int,
    activeTaskCount: nat,
    monthlyData: seq<MonthBucket>,
    upcomingTasks: seq<UpcomingTask>,
    recentActivities: seq<RecentActivity>)

  const StatsError := "İstatistikler yüklenirken bir hata oluştu"

  /**
   * The route: 401 without a session. The totals cover every transaction of every user
   * (an empty sum is 0) and the net is income minus expense; the open-task count, the
   * twelve months, the five soonest pending tasks and the ten newest log entries follow.
   * A missing project or user behind those rows fails the route with 500.
   */
  method GetStats(db: Db, session: Option<Session>, now: DateTime, dueTime: string -> int) returns (resp: Response<Stats>)
    requires GetterDates(db.transactions)
    ensures session.None? <==> resp == Failure(401, Given(UnauthorizedAccess))
    ensures session.Some? ==>
      (resp.Failure? <==> UpcomingRows(Soonest(db.tasks, dueTime), db.users, db.projects).None?
                          || RecentRows(Newest(db.logs), db.users).None?)
    ensures session.Some? && resp.Failure? ==> resp == Failure(500, Given(StatsError))
    ensures resp.Success? ==>
      var s := resp.body;
      && resp.status == 200
      && s.totalIncome == TypeTotal(db.transactions, INCOME)
      && s.totalExpense == TypeTotal(db.transactions, EXPENSE)
      && s.netProfit == s.totalIncome - s.totalExpense
      && s.activeTaskCount == |db.tasks| - CountStatus(db.tasks, DONE)
      && |s.monthlyData| == 12
      && (forall i :: 0 <= i < 12 ==> s.monthlyData[i] == Bucket(SinceChartStart(db.transactions, now), TxMonthKey, ChartKeys(now)[i]))
      && s.upcomingTasks == UpcomingRows(Soonest(db.tasks, dueTime), db.users, db.projects).value
      && s.recentActivities == RecentRows(Newest(db.logs), db.users).value
  {
    if session.None? {
      return Failure(401, Given(UnauthorizedAccess));
    }
    var totalIncome := TypeTotal(db.transactions, INCOME);
    var totalExpense := TypeTotal(db.transactions, EXPENSE);
    OpenCount(db.tasks);
    var activeTaskCount := |Filter(db.tasks, Open)|;
    var monthly := MonthlyData(db.transactions, now);
    var upcoming := UpcomingRows(Soonest(db.tasks, dueTime), db.users, db.projects);
    var recent := RecentRows(Newest(db.logs), db.users);
    if upcoming.None? || recent.None? {
      return Failure(500, Given(StatsError));
    }
    resp := Success(200, Stats(totalIncome, totalExpense, totalIncome - totalExpense, activeTaskCount,
                               monthly, upcoming.value, recent.value));
  }
}
