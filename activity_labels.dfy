/**
 * The dashboard's two lists as the reader sees them: the relative time, the sentence and
 * the icon of a recent activity, and the due-date label and overdue mark of an upcoming
 * task. Times are time values in milliseconds; `now` is a parameter.
 */
module ActivityLabels {
  import opened Common
  import opened Text
  import opened Calendar

  // ---------------------------------------------------------------- formatRelativeTime

  /** How long ago something happened, in the largest unit the list shows. */
  datatype Elapsed = JustNow | MinutesAgo(n: nat) | HoursAgo(n: nat) | DaysAgo(n: nat) | OnDate(showYear: bool)

  /**
   * The reading of `diff = now - then` milliseconds, each count rounded down: under a
   * minute, including any time in the future, is "just now"; then whole minutes below an
   * hour, whole hours below a day, whole days below a week; from a week on, the date, with
   * the year once more than 365 whole days have passed.
   */
  function ElapsedSince(diff: int): (e: Elapsed)
    ensures e.JustNow? <==> diff < MsPerMinute
    ensures e.MinutesAgo? ==> 1 <= e.n < 60 && e.n * MsPerMinute <= diff < (e.n + 1) * MsPerMinute
    ensures e.HoursAgo? ==> 1 <= e.n < 24 && e.n * MsPerHour <= diff < (e.n + 1) * MsPerHour
    ensures e.DaysAgo? ==> 1 <= e.n < 7 && e.n * MsPerDay <= diff < (e.n + 1) * MsPerDay
    ensures e.OnDate? <==> diff >= 7 * MsPerDay
    ensures e.OnDate? ==> (e.showYear <==> diff >= 366 * MsPerDay)
  {
    var minutes := diff / MsPerMinute;
    var hours := diff / MsPerHour;
    var days := diff / MsPerDay;
    if minutes < 1 then JustNow
    else if minutes < 60 then MinutesAgo(minutes)
    else if hours < 24 then HoursAgo(hours)
    else if days < 7 then DaysAgo(days)
    else OnDate(days > 365)
  }

  /**
   * `formatRelativeTime`: the label of an activity at `at` seen at `now`. `localeDate` is
   * the Turkish short date of a time value, with or without the year.
   */
  function FormatRelativeTime(now: int, at: int, localeDate: (int, bool) -> string): (r: string)
    ensures now - at < MsPerMinute ==> r == "Az önce"
    ensures MsPerMinute <= now - at < MsPerHour ==> r == NatToDigits((now - at) / MsPerMinute) + " dakika önce"
    ensures MsPerHour <= now - at < MsPerDay ==> r == NatToDigits((now - at) / MsPerHour) + " saat önce"
    ensures MsPerDay <= now - at < 7 * MsPerDay ==> r == NatToDigits((now - at) / MsPerDay) + " gün önce"
    ensures now - at >= 7 * MsPerDay ==> r == localeDate(at, now - at >= 366 * MsPerDay)
  {
    match ElapsedSince(now - at)
    case JustNow => "Az önce"
    case MinutesAgo(n) => NatToDigits(n) + " dakika önce"
    case HoursAgo(n) => NatToDigits(n) + " saat önce"
    case DaysAgo(n) => NatToDigits(n) + " gün önce"
    case OnDate(showYear) => localeDate(at, showYear)
  }

  /** The later an activity, the smaller its reading: readings never run backwards in time. */
  lemma ElapsedMonotone(d1: int, d2: int)
    requires d1 <= d2
    ensures Rank(ElapsedSince(d1)) <= Rank(ElapsedSince(d2))
  {
  }

  /** Orders readings by the time they stand for. */
  function Rank(e: Elapsed): int {
    match e
    case JustNow => 0
    case MinutesAgo(n) => n
    case HoursAgo(n) => 60 * n
    case DaysAgo(n) => 24 * 60 * n
    case OnDate(showYear) => if showYear then 24 * 60 * 366 else 24 * 60 * 7
  }

  // ---------------------------------------------------------------- getActionText, getIcon, getIconColor

  const ActionTranslations: map<string, string> := map[
    "CREATED" := "oluşturdu",
    "UPDATED" := "güncelledi",
    "DELETED" := "sildi",
    "COMPLETED" := "tamamladı",
    "ASSIGNED" := "atadı",
    "COMMENTED" := "yorum yaptı"]

  const EntityTranslations: map<string, string> := map[
    "TASK" := "görevi",
    "PROJECT" := "projeyi",
    "TRANSACTION" := "işlemi",
    "INVOICE" := "faturayı",
    "USER" := "kullanıcıyı"]

  /** `table[key] || key.toLowerCase()`. */
  function Translate(table: map<string, string>, key: string): (r: string)
    ensures key in table && table[key] != "" ==> r == table[key]
    ensures key !in table ==> r == LowerCase(key)
  {
    if key in table && table[key] != "" then table[key] else LowerCase(key)
  }

  /** `getActionText` as written: the tables are looked up with the keys exactly as logged. */
  function ActionTextAsWritten(action: string, entityType: string): string {
    Translate(ActionTranslations, action) + " " + Translate(EntityTranslations, entityType)
  }

  /** The icons of the list. */
  datatype Icon = CheckSquare | Folder | DollarSign | FileText | UserIcon | ActivityIcon

  const EntityIcons: map<string, Icon> := map[
    "TASK" := CheckSquare,
    "PROJECT" := Folder,
    "TRANSACTION" := DollarSign,
    "INVOICE" := FileText,
    "USER" := UserIcon]

  const FallbackColor := "text-gray-600 bg-gray-50"

  const EntityColors: map<string, string> := map[
    "TASK" := "text-blue-600 bg-blue-50",
    "PROJECT" := "text-purple-600 bg-purple-50",
    "TRANSACTION" := "text-green-600 bg-green-50",
    "INVOICE" := "text-orange-600 bg-orange-50",
    "USER" := FallbackColor]

  /** `getIcon` as written: an entity type missing from the table gets the generic activity icon. */
  function IconAsWritten(entityType: string): (r: Icon)
    ensures entityType !in EntityIcons <==> r == ActivityIcon
    ensures entityType in EntityIcons ==> r == EntityIcons[entityType]
  {
    if entityType in EntityIcons then EntityIcons[entityType] else ActivityIcon
  }

  /** `getIconColor` as written: an entity type missing from the table gets gray. */
  function ColorAsWritten(entityType: string): (r: string)
    ensures entityType !in EntityColors ==> r == FallbackColor
    ensures entityType in EntityColors ==> r == EntityColors[entityType]
  {
    if entityType in EntityColors && EntityColors[entityType] != "" then EntityColors[entityType] else FallbackColor
  }

  /**
   * As written, the tables never match what the routes log: every writer logs lower-case
   * actions and entity types ("created", "user"), and the tables are keyed in upper case.
   * A created user reads "created user" with the generic gray icon.
   */
  lemma LoggedKeysMissTables()
    ensures ActionTextAsWritten("created", "user") == "created user"
    ensures IconAsWritten("user") == ActivityIcon && ColorAsWritten("user") == FallbackColor
    ensures IconAsWritten("task") == ActivityIcon && ColorAsWritten("task") == FallbackColor
  {
    assert LowerCase("created") == "created";
    assert LowerCase("user") == "user";
  }

  /** `getActionText` with the keys upper-cased before the lookup, so logged keys find their words. */
  function ActionText(action: string, entityType: string): string {
    ActionTextAsWritten(UpperCase(action), UpperCase(entityType))
  }

  /** `getIcon` with the key upper-cased. */
  function EntityIcon(entityType: string): Icon {
    IconAsWritten(UpperCase(entityType))
  }

  /** `getIconColor` with the key upper-cased. */
  function EntityColor(entityType: string): string {
    ColorAsWritten(UpperCase(entityType))
  }

  /** The keys the routes log, upper-cased. */
  lemma LoggedKeysUpperCased()
    ensures UpperCase("created") == "CREATED" && UpperCase("updated") == "UPDATED"
    ensures UpperCase("user") == "USER" && UpperCase("task") == "TASK"
  {
    assert UpperCase("created") == "CREATED";
    assert UpperCase("updated") == "UPDATED";
    assert UpperCase("user") == "USER";
    assert UpperCase("task") == "TASK";
  }

  /** With the keys upper-cased, the logged entries read in Turkish with their own icons. */
  lemma LoggedKeysTranslated()
    ensures ActionText("created", "user") == "oluşturdu kullanıcıyı"
    ensures ActionText("updated", "task") == "güncelledi görevi"
    ensures EntityIcon("user") == UserIcon && EntityIcon("task") == CheckSquare
    ensures EntityColor("task") == "text-blue-600 bg-blue-50"
  {
    LoggedKeysUpperCased();
  }

  /**
   * With the keys upper-cased, every action and entity type whose upper case is a table key,
   * in whatever case it was logged, reads the table's Turkish words, icon and colour.
   */
  lemma TableKeysTranslated(action: string, entityType: string)
    requires UpperCase(action) in ActionTranslations && UpperCase(entityType) in EntityTranslations
    ensures ActionText(action, entityType)
            == ActionTranslations[UpperCase(action)] + " " + EntityTranslations[UpperCase(entityType)]
    ensures EntityIcon(entityType) == EntityIcons[UpperCase(entityType)]
    ensures EntityColor(entityType) == EntityColors[UpperCase(entityType)]
  {
  }

  lemma UpperCaseIdempotent(s: string)
    ensures UpperCase(UpperCase(s)) == UpperCase(s)
  {
  }

  /** Upper-casing first makes the lookup ignore case: differently cased keys read the same. */
  lemma ActionTextIgnoresCase(action: string, entityType: string)
    ensures ActionText(UpperCase(action), UpperCase(entityType)) == ActionText(action, entityType)
    ensures EntityIcon(UpperCase(entityType)) == EntityIcon(entityType)
  {
    UpperCaseIdempotent(action);
    UpperCaseIdempotent(entityType);
  }

  /** On keys already in upper case the corrected lookup reads exactly as the one written. */
  lemma ActionTextAgreesOnUpperKeys(action: string, entityType: string)
    requires UpperCase(action) == action && UpperCase(entityType) == entityType
    ensures ActionText(action, entityType) == ActionTextAsWritten(action, entityType)
    ensures EntityIcon(entityType) == IconAsWritten(entityType)
  {
  }

  // ---------------------------------------------------------------- upcoming tasks: formatDate, isOverdue

  /** `Math.ceil(a / b)` for a positive divisor. */
  function CeilDiv(a: int, b: int): (q: int)
    requires b > 0
    ensures (q - 1) * b < a <= q * b
  {
    -((-a) / b)
  }

  /** What the due-date column says, before it is written out. */
  datatype DueLabel = Undetermined | DaysOverdue(n: nat) | Today | Tomorrow | DaysLeft(n: nat) | OnDay

  /** The label of a day difference: past, today, tomorrow, up to a week ahead, or the date. */
  function Classify(days: int): (l: DueLabel)
    ensures days < 0 <==> l.DaysOverdue?
    ensures l.DaysOverdue? ==> l.n == -days
    ensures l.Today? <==> days == 0
    ensures l.Tomorrow? <==> days == 1
    ensures l.DaysLeft? <==> 2 <= days <= 7
    ensures l.DaysLeft? ==> l.n == days
    ensures l.OnDay? <==> days > 7
  {
    if days < 0 then DaysOverdue(-days)
    else if days == 0 then Today
    else if days == 1 then Tomorrow
    else if days <= 7 then DaysLeft(days)
    else OnDay
  }

  /** The text of a label; `dated` is the Turkish day and short month of the due date. */
  function Render(l: DueLabel, dated: string): string {
    match l
    case Undetermined => "Belirsiz"
    case DaysOverdue(n) => NatToDigits(n) + " gün geçti"
    case Today => "Bugün"
    case Tomorrow => "Yarın"
    case DaysLeft(n) => NatToDigits(n) + " gün kaldı"
    case OnDay => dated
  }

  /** `diffDays` as written: the difference of the two times in days, rounded up. */
  function DueDaysAsWritten(due: int, now: int): (d: int)
    ensures (d - 1) * MsPerDay < due - now <= d * MsPerDay
  {
    CeilDiv(due - now, MsPerDay)
  }

  /** `formatDate` as written: no due date is "Belirsiz", otherwise the label of the rounded-up days. */
  function DueLabelAsWritten(due: Option<int>, now: int): (l: DueLabel)
    ensures due.None? <==> l.Undetermined?
    ensures due.Some? ==> l == Classify(DueDaysAsWritten(due.value, now))
  {
    if due.None? then Undetermined else Classify(DueDaysAsWritten(due.value, now))
  }

  /** `isOverdue`: the due time is strictly before now; never without a due date. */
  predicate IsOverdue(due: Option<int>, now: int) {
    due.Some? && due.value < now
  }

  /**
   * As written, rounding the difference up reads a task due later today as "Yarın", where
   * the calendar says today, and a task that fell due yesterday, less than a day ago, as
   * "Bugün", where the calendar says one day past. Both need a due time other than
   * midnight.
   */
  lemma LaterTodayReadsTomorrow(due: int, now: int)
    ensures now < due && Day(due) == Day(now) ==>
      DueLabelAsWritten(Some(due), now) == Tomorrow && DueLabelOf(Some(due), now) == Today
    ensures now - MsPerDay < due && Day(due) + 1 == Day(now) ==>
      DueLabelAsWritten(Some(due), now) == Today && DueLabelOf(Some(due), now) == DaysOverdue(1)
  {
  }

  /** At midnight, a task due at one in the morning reads "Yarın". */
  lemma MidnightExample()
    ensures Day(MsPerHour) == Day(0)
    ensures Render(DueLabelAsWritten(Some(MsPerHour), 0), "") == "Yarın"
  {
    LaterTodayReadsTomorrow(MsPerHour, 0);
  }

  /** At ten in the morning, a task due at eleven the evening before reads "Bugün", not "1 gün geçti". */
  lemma YesterdayEveningExample()
    ensures var due, now := 23 * MsPerHour, MsPerDay + 10 * MsPerHour;
      && Day(due) + 1 == Day(now)
      && Render(DueLabelAsWritten(Some(due), now), "") == "Bugün"
      && Render(DueLabelOf(Some(due), now), "") == "1 gün geçti"
  {
    LaterTodayReadsTomorrow(23 * MsPerHour, MsPerDay + 10 * MsPerHour);
    assert NatToDigits(1) == "1";
  }

  /** `diffDays` counted in calendar days: the day of the due date less the day of now. */
  function DueDays(due: int, now: int): (d: int)
    ensures d == 0 <==> Day(due) == Day(now)
    ensures d < 0 <==> Day(due) < Day(now)
  {
    Day(due) - Day(now)
  }

  /** `formatDate` counting calendar days. */
  function DueLabelOf(due: Option<int>, now: int): (l: DueLabel)
    ensures due.None? <==> l.Undetermined?
    ensures due.Some? ==> l == Classify(DueDays(due.value, now))
  {
    if due.None? then Undetermined else Classify(DueDays(due.value, now))
  }

  /** The due-date label with its text. */
  function FormatDue(due: Option<int>, now: int, localeDate: int -> string): (r: string)
    ensures due.None? ==> r == "Belirsiz"
  {
    Render(DueLabelOf(due, now), if due.Some? then localeDate(due.value) else "")
  }

  /**
   * Counting calendar days, "Bugün" is exactly a due date today, "Yarın" exactly one
   * tomorrow, a label of days past is always marked overdue, and an overdue task never
   * reads as due ahead.
   */
  lemma CalendarDaysRead(due: int, now: int)
    ensures DueLabelOf(Some(due), now) == Today <==> Day(due) == Day(now)
    ensures DueLabelOf(Some(due), now) == Tomorrow <==> Day(due) == Day(now) + 1
    ensures DueLabelOf(Some(due), now).DaysOverdue? ==> IsOverdue(Some(due), now)
    ensures IsOverdue(Some(due), now) ==> DueLabelOf(Some(due), now).Today? || DueLabelOf(Some(due), now).DaysOverdue?
  {
    DayMonotone(due, now);
  }

  /** `Day` never runs backwards. */
  lemma DayMonotone(a: int, b: int)
    ensures a <= b ==> Day(a) <= Day(b)
    ensures Day(a) < Day(b) ==> a < b
  {
  }
}
