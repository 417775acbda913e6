/**
 * The records the routes read and write, one datatype per database table, and the
 * enumerations of the database schema with the names they carry in JSON and in the
 * query strings.
 */
module Domain {
  import opened Common
  import Calendar

  datatype TransactionType = INCOME | EXPENSE

  datatype TaskStatus = BACKLOG | TODO | IN_PROGRESS | IN_REVIEW | DONE

  datatype TaskPriority = LOW | MEDIUM | HIGH | URGENT

  datatype ProjectStatus = PLANNING | ACTIVE | ON_HOLD | COMPLETED | CANCELLED

  datatype ProjectRole = OWNER | MEMBER | VIEWER

  datatype ReportFrequency = DAILY | WEEKLY | MONTHLY

  datatype InvoiceStatus = DRAFT | SENT | PAID | OVERDUE | CANCELLED_INVOICE

  /** A financial transaction together with the name of its category (the `include: { category }` join). */
  datatype Transaction = Transaction(
    id: string,
    txType: TransactionType,
    amount: int,
    description: string,
    date: Calendar.DateTime,
    categoryId: string,
    categoryName: string,
    userId: string)

  /** Every stored date is given by the in-range fields its getters report. */
  predicate GetterDates(txs: seq<Transaction>) {
    forall t :: t in txs ==> t.date.Valid()
  }

  datatype Task = Task(
    id: string,
    title: string,
    description: Option<string>,
    status: TaskStatus,
    priority: TaskPriority,
    order: int,
    dueDate: Option<string>,
    projectId: string,
    assigneeId: Option<string>,
    creatorId: string,
    createdAt: Calendar.DateTime,
    updatedAt: Calendar.DateTime)

  datatype ProjectMember = ProjectMember(userId: string, role: ProjectRole)

  /** A project with its member rows (the `include: { members }` join). */
  datatype Project = Project(
    id: string,
    name: string,
    description: Option<string>,
    status: ProjectStatus,
    color: string,
    budget: Option<real>,
    startDate: Option<string>,
    endDate: Option<string>,
    members: seq<ProjectMember>,
    updatedAt: Calendar.DateTime)

  /** A report schedule; `lastRunAt` is a time value once the schedule has run. */
  datatype ReportSchedule = ReportSchedule(
    id: string,
    name: string,
    frequency: ReportFrequency,
    recipients: seq<string>,
    isActive: bool,
    userId: string,
    lastRunAt: Option<int>)

  /** The metadata object stored with an activity-log entry, one shape per writer. */
  datatype LogMetadata =
    | ReportRun(reportType: string, periodStart: int, periodEnd: Option<int>,
                transactionsCount: nat, tasksCompleted: nat, emailsSent: nat, emailsFailed: nat)
    | ScheduleCreated(scheduleName: string, frequency: ReportFrequency)
    | UserCreated(userName: string, userEmail: string)

  datatype ActivityLog = ActivityLog(
    action: string,
    entityType: string,
    entityId: string,
    userId: string,
    metadata: LogMetadata)

  /** Quantities and prices are JSON numbers, kept exactly as the request gave them. */
  datatype InvoiceItem = InvoiceItem(description: string, quantity: real, unitPrice: real)

  /** An invoice with its items (the `include: { items }` join); the dates are time values. */
  datatype Invoice = Invoice(
    id: string,
    number: string,
    status: InvoiceStatus,
    clientName: string,
    clientEmail: Option<string>,
    issueDate: int,
    dueDate: int,
    notes: Option<string>,
    userId: string,
    items: seq<InvoiceItem>)

  /** A user row; the API never sends `hashedPassword` back. */
  datatype User = User(id: string, name: string, email: string, hashedPassword: string)

  /** The signed-in user as the session reports it. */
  datatype Session = Session(userId: string, role: string)

  function TaskStatusName(s: TaskStatus): string {
    match s
    case BACKLOG => "BACKLOG"
    case TODO => "TODO"
    case IN_PROGRESS => "IN_PROGRESS"
    case IN_REVIEW => "IN_REVIEW"
    case DONE => "DONE"
  }

  /** Reads a task status from its name; any other string is not a status. */
  function ParseTaskStatus(s: string): (r: Option<TaskStatus>)
    ensures r.Some? ==> TaskStatusName(r.value) == s
    ensures forall st :: TaskStatusName(st) == s ==> r == Some(st)
  {
    if s == "BACKLOG" then Some(BACKLOG)
    else if s == "TODO" then Some(TODO)
    else if s == "IN_PROGRESS" then Some(IN_PROGRESS)
    else if s == "IN_REVIEW" then Some(IN_REVIEW)
    else if s == "DONE" then Some(DONE)
    else None
  }

  /** Position of a status in the schema's enum, which is how the database sorts it. */
  function TaskStatusRank(s: TaskStatus): (r: nat)
    ensures r < 5
  {
    match s
    case BACKLOG => 0
    case TODO => 1
    case IN_PROGRESS => 2
    case IN_REVIEW => 3
    case DONE => 4
  }

  function TaskPriorityName(p: TaskPriority): string {
    match p
    case LOW => "LOW"
    case MEDIUM => "MEDIUM"
    case HIGH => "HIGH"
    case URGENT => "URGENT"
  }

  function ParseTaskPriority(s: string): (r: Option<TaskPriority>)
    ensures r.Some? ==> TaskPriorityName(r.value) == s
    ensures forall p :: TaskPriorityName(p) == s ==> r == Some(p)
  {
    if s == "LOW" then Some(LOW)
    else if s == "MEDIUM" then Some(MEDIUM)
    else if s == "HIGH" then Some(HIGH)
    else if s == "URGENT" then Some(URGENT)
    else None
  }

  function ProjectStatusName(p: ProjectStatus): string {
    match p
    case PLANNING => "PLANNING"
    case ACTIVE => "ACTIVE"
    case ON_HOLD => "ON_HOLD"
    case COMPLETED => "COMPLETED"
    case CANCELLED => "CANCELLED"
  }

  function ParseProjectStatus(s: string): (r: Option<ProjectStatus>)
    ensures r.Some? ==> ProjectStatusName(r.value) == s
    ensures forall p :: ProjectStatusName(p) == s ==> r == Some(p)
  {
    if s == "PLANNING" then Some(PLANNING)
    else if s == "ACTIVE" then Some(ACTIVE)
    else if s == "ON_HOLD" then Some(ON_HOLD)
    else if s == "COMPLETED" then Some(COMPLETED)
    else if s == "CANCELLED" then Some(CANCELLED)
    else None
  }

  function TransactionTypeName(t: TransactionType): string {
    match t
    case INCOME => "INCOME"
    case EXPENSE => "EXPENSE"
  }

  function ParseTransactionType(s: string): (r: Option<TransactionType>)
    ensures r.Some? ==> TransactionTypeName(r.value) == s
    ensures forall t :: TransactionTypeName(t) == s ==> r == Some(t)
  {
    if s == "INCOME" then Some(INCOME)
    else if s == "EXPENSE" then Some(EXPENSE)
    else None
  }

  function FrequencyName(f: ReportFrequency): string {
    match f
    case DAILY => "DAILY"
    case WEEKLY => "WEEKLY"
    case MONTHLY => "MONTHLY"
  }

  function ParseFrequency(s: string): (r: Option<ReportFrequency>)
    ensures r.Some? ==> FrequencyName(r.value) == s
    ensures forall f :: FrequencyName(f) == s ==> r == Some(f)
  {
    if s == "DAILY" then Some(DAILY)
    else if s == "WEEKLY" then Some(WEEKLY)
    else if s == "MONTHLY" then Some(MONTHLY)
    else None
  }

  function InvoiceStatusName(s: InvoiceStatus): string {
    match s
    case DRAFT => "DRAFT"
    case SENT => "SENT"
    case PAID => "PAID"
    case OVERDUE => "OVERDUE"
    case CANCELLED_INVOICE => "CANCELLED"
  }

  function ParseInvoiceStatus(s: string): (r: Option<InvoiceStatus>)
    ensures r.Some? ==> InvoiceStatusName(r.value) == s
    ensures forall st :: InvoiceStatusName(st) == s ==> r == Some(st)
  {
    if s == "DRAFT" then Some(DRAFT)
    else if s == "SENT" then Some(SENT)
    else if s == "PAID" then Some(PAID)
    else if s == "OVERDUE" then Some(OVERDUE)
    else if s == "CANCELLED" then Some(CANCELLED_INVOICE)
    else None
  }
}
