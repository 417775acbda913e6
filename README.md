# alphacoredashboard core, modelled in Dafny

alphacoredashboard is a Next.js back office with these parts:

- finance: transactions, categories and invoices;
- projects with members, and tasks on a kanban board;
- report schedules that cron routes mail out daily, weekly and monthly;
- an activity log;
- a dashboard.

This project models the core of it and proves properties of that model:

- **the cron report routes** (`ReportWindows`, `ReportData`, `ReportDelivery`, `CronRoutes`):
  - the Bearer-secret check;
  - which frequencies are due on a given day;
  - the report windows, built with JavaScript `Date` arithmetic (`Calendar`);
  - the income/expense summaries, task statistics and top-five spending categories;
  - the mail loop that stamps `lastRunAt`;
  - the activity-log entry of each run.
- **the kanban board** (`Kanban`): a class whose task list a drag-and-drop move updates optimistically. When the server refuses, it rolls back to `initialTasks`, whose card objects the move has already changed.
- **permissions** (`Permissions`): administrators, project members and owners.
- **the zod schemas** of categories, invoices, projects, tasks, transactions and users, and the report-schedule schema (`Validation`, `ReportsApi`):
  - each as a parser from a JSON body to a value or to the first issue's message.
- **the API routes** over an in-memory database (`Store.Db`, one `seq` field per table):
  - tasks, task reorder, projects, invoices, transactions and the activity log;
  - report schedules, users, and dashboard statistics.
  - Each route is a method whose contract gives every status code and the whole new state.
- **the navigation** (`Navigation`):
  - the middleware's route guard and its matcher;
  - the header's breadcrumbs;
  - the sidebar's active-link tests and the avatar initials.
- **the dashboard widgets** (`ActivityLabels`):
  - recent activity: relative times, action text and icons;
  - upcoming tasks: due-date labels.

Parameters stand for what the model cannot compute:

- the clock (`now`);
- the mail provider's outcome per attempt (`sent`);
- the email pattern of zod (`isEmail`);
- bcrypt (`hash`);
- the `Date` constructor's reading of a string (`parseDate`, `toDate`);
- locale date formatting (`localeDate`).

## Model

| member | source | states |
|---|---|---|
| ReportWindows.AuthorizedMeans | src/app/api/cron/run-scheduled/route.ts:21-26 | a request passes exactly when a non-empty secret is configured and the header is "Bearer " followed by that secret; an unset or empty secret admits nobody |
| ReportWindows.FrequenciesToRun | src/app/api/cron/run-scheduled/route.ts:28-35 | DAILY always and first; WEEKLY exactly on a Monday; MONTHLY exactly on the 1st; no repeats, in that order |
| ReportWindows.DailyWindow | src/app/api/cron/daily-report/route.ts:20-24 | `today` is midnight of the current day and `tomorrow` exactly one day later, so the window contains now |
| ReportWindows.PreviousSevenDays | src/app/api/cron/run-scheduled/route.ts:153-157 | the weekly window of the combined route is the seven whole days before today's midnight |
| ReportWindows.MondayWeek | src/app/api/cron/weekly-report/route.ts:20-30 | `weekStart` is midnight of a Monday no more than six days before today (Sunday goes back six days), and `weekEnd` is seven days later |
| ReportWindows.PreviousMonth | src/app/api/cron/monthly-report/route.ts:25-27 | the month before month m is December of the year before when m is January |
| ReportWindows.CurrentMonthWindows | src/app/api/cron/monthly-report/route.ts:20-27 | this month runs from 00:00 on the 1st to one millisecond before the next month and contains now; the previous month (December of last year in January) ends one millisecond before this one starts |
| ReportWindows.PreviousMonthWindows | src/app/api/cron/run-scheduled/route.ts:218-224 | the combined route's monthly report covers the whole previous month, read back through `monthEnd`'s getters, and compares it with the month before that |
| ReportWindows.EndOfMonthBeforeTime | src/app/api/cron/run-scheduled/route.ts:219 | `new Date(y, m, 0, 23, 59, 59, 999)` is one millisecond before the first of month m |
| Calendar.MakeDayShift | src/app/api/cron/daily-report/route.ts:23-24 | `setDate(getDate() + k)` moves a date by exactly k days, across month and year ends |
| Calendar.DayZeroIsLastDay | src/app/api/cron/monthly-report/route.ts:23 | day 0 of month m + 1 is the last day of month m |
| Calendar.DayZeroGetters | src/app/api/cron/run-scheduled/route.ts:219-220 | the getters of `new Date(y, m, 0)` report the normalised previous month and its last date |
| Calendar.FirstOfMonthGetters | src/app/api/dashboard/stats/route.ts:68-69 | the getters of `new Date(y, m, 1)` report the normalised month and date 1 |
| Calendar.MakeDayNextMonth | src/app/api/cron/monthly-report/route.ts:22-23 | the first of the next month is the length of this month after the first of this month |
| Calendar.WeekDayOf | src/app/api/cron/run-scheduled/route.ts:29 | `getDay()` lies in 0..6 and is the day number shifted so that 1 January 1970 is a Thursday |
| Calendar.Normalize | src/app/api/dashboard/stats/route.ts:45 | `new Date(y, m, 1)` lands on a month in range for any integer month offset |
| Calendar.DaysInMonth | src/app/api/cron/monthly-report/route.ts:23 | every month has 28 to 31 days |
| Calendar.MakeDayInjective | src/app/api/dashboard/stats/route.ts:69 | two in-range dates with the same day number are the same date |
| Calendar.NormalizeByIndex | src/app/api/dashboard/stats/route.ts:45 | `new Date(y, m, 1)` depends only on the month count `12 * y + m` |
| Calendar.MonthFirstsIncrease | src/app/api/dashboard/stats/route.ts:45 | the first days of months do not decrease with the month count |
| Calendar.DayWithinMonth | src/app/api/dashboard/stats/route.ts:76-77 | an in-range date lies from the first of its month to before the first of the next |
| Calendar.OnOrAfterFirst | src/app/api/dashboard/stats/route.ts:48-52 | an in-range date is on or after the first of a month exactly when its month count is at least that month's |
| Calendar.OnOrAfterMidnight | src/app/api/dashboard/stats/route.ts:48-52 | a time is at or after a day's midnight exactly when its day is at least that day |
| ReportData.IncomeExpensePartition | src/app/api/cron/run-scheduled/route.ts:108-113 | every transaction is counted once, as income or as expense |
| ReportData.TypeTotalAppend | src/app/api/cron/run-scheduled/route.ts:108-110 | the filtered sum of a concatenation is the sum of the parts' sums |
| ReportData.TypeTotalPermutation | src/app/api/cron/run-scheduled/route.ts:99-113 | the totals do not depend on the order in which the database returns the rows |
| ReportData.SummarizePermutation | src/app/api/cron/run-scheduled/route.ts:121 | reordering a window's rows leaves its `{ income, expense, net }` unchanged |
| ReportData.SummaryAccountsForAll | src/app/api/cron/run-scheduled/route.ts:121 | net plus twice the expense, and income plus expense, both equal the sum of all amounts |
| ReportData.TwoStatusesBound | src/app/api/cron/run-scheduled/route.ts:182-183 | tasks of two different statuses are counted disjointly |
| ReportData.TaskStats | src/app/api/cron/run-scheduled/route.ts:181-185 | total is the number of tasks, and completed plus in-progress never exceeds it |
| ReportData.AddToSpec | src/app/api/cron/run-scheduled/route.ts:329-332 | `acc[name] = (acc[name] \|\| 0) + amount`: names stay distinct, a new name goes last, and only that name's amount grows |
| ReportData.CategoryExpensesSpec | src/app/api/cron/run-scheduled/route.ts:327-332 | one entry per category with an expense, with distinct names, each holding the sum of that category's expenses; income is never counted |
| ReportData.LookupDistinct | src/app/api/cron/run-scheduled/route.ts:330 | with distinct names, looking up an entry's name finds that entry's amount |
| ReportData.DistinctNamesPermutation | src/app/api/cron/run-scheduled/route.ts:334-335 | sorting the entries keeps their names distinct |
| ReportData.CategoryEntries | src/app/api/cron/run-scheduled/route.ts:327-334 | every entry is a category with expenses, holding their sum |
| ReportData.KeyedSplit | src/app/api/cron/run-scheduled/route.ts:334 | every entry goes either to the run of array-index keys or to the run of the other keys |
| ReportData.KeyedKinds | src/app/api/cron/run-scheduled/route.ts:334 | each run holds only its own kind of key |
| ReportData.EntriesPermutation | src/app/api/cron/run-scheduled/route.ts:334 | `Object.entries` lists every category total exactly once |
| ReportData.EntriesOrder | src/app/api/cron/run-scheduled/route.ts:334 | `Object.entries` lists the array-index keys first, by ascending value, and then the other keys in creation order |
| ReportData.IndexKeyListedFirst | src/app/api/cron/run-scheduled/route.ts:334 | an entry with an array-index key is listed before an entry with another key, even when its key was created later |
| ReportData.OneIsIndexKey | src/app/api/cron/run-scheduled/route.ts:334 | "1" is an array-index key and "B" is not |
| ReportData.RankedEntries | src/app/api/cron/run-scheduled/route.ts:334-336 | the ranked entries are the category totals, sorted by amount, largest first, and the top categories are their prefix |
| ReportData.TopCategoriesSpec | src/app/api/cron/run-scheduled/route.ts:324-338 | at most five entries with distinct names, largest first, each the full expense of its category |
| ReportData.TopCategoriesOmitted | src/app/api/cron/run-scheduled/route.ts:334-336 | a category with expenses is left out only when five are kept, each at least as large as it |
| ReportData.EmailStats | src/app/api/cron/run-scheduled/route.ts:358-363 | sent plus failed is the number of results; none failed exactly when all succeeded |
| ReportData.SentFailedPartition | src/app/api/cron/run-scheduled/route.ts:360-361 | the two filters split the results |
| ReportDelivery.RecipientsAppend | src/app/api/cron/run-scheduled/route.ts:304-305 | the recipients of two batches are those of the first followed by those of the second |
| ReportDelivery.RecipientsOrder | src/app/api/cron/run-scheduled/route.ts:304-305 | recipient j of schedule i comes right after the recipients of the schedules before i |
| ReportDelivery.Deliveries | src/app/api/cron/run-scheduled/route.ts:306-312 | one result per recipient, in order, recording that recipient and whether its attempt succeeded |
| ReportDelivery.StampRuns | src/app/api/cron/run-scheduled/route.ts:315-318 | exactly the batch's schedules get `lastRunAt`; every other field and row is unchanged |
| ReportDelivery.StampRunsCompose | src/app/api/cron/run-scheduled/route.ts:57-70 | stamping two batches one after the other stamps their union |
| ReportDelivery.SendEmails | src/app/api/cron/run-scheduled/route.ts:298-322 | every recipient of every schedule gets one attempt, and a failure does not stop the loop; the results follow the recipients; every schedule is stamped whether or not its sends failed |
| ReportDelivery.ReportLog | src/app/api/cron/run-scheduled/route.ts:340-356 | no entry for an empty batch, otherwise one "generated" "report" entry attributed to the first schedule's owner |
| ReportDelivery.LogActivity | src/app/api/cron/run-scheduled/route.ts:340-356 | appends that entry and changes no other log entry |
| CronRoutes.PreviousMonthNet | src/app/api/cron/run-scheduled/route.ts:249 | null exactly when the previous month has no transactions |
| CronRoutes.PreviousMonthNetSpec | src/app/api/cron/run-scheduled/route.ts:243-249 | otherwise it is that month's income minus its expense |
| CronRoutes.DailyReportSpec | src/app/api/cron/daily-report/route.ts:27-57 | the daily report lists exactly the day's transactions, latest first, and its summary is their income, expense and net |
| CronRoutes.RunDailyReport | src/app/api/cron/run-scheduled/route.ts:90-144 | the report of today's window, one delivery per recipient, the batch stamped, one log entry appended |
| CronRoutes.RunWeeklyReport | src/app/api/cron/run-scheduled/route.ts:158-209 | the report of the given week, with deliveries, stamps and log as for the daily run |
| CronRoutes.RunMonthlyReport | src/app/api/cron/run-scheduled/route.ts:214-290 | the report of the given month compared with the month before, with deliveries, stamps and log |
| CronRoutes.SelectedOfFrequency | src/app/api/cron/run-scheduled/route.ts:38-68 | selecting by the due frequencies and then by one frequency gives that frequency's active schedules when it is due, none otherwise |
| CronRoutes.StampNone | src/app/api/cron/run-scheduled/route.ts:57 | an empty batch stamps nothing |
| CronRoutes.RunDailyIfAny | src/app/api/cron/run-scheduled/route.ts:56-59 | runs the daily report only for a non-empty batch, otherwise changes nothing |
| CronRoutes.RunPreviousWeekReport | src/app/api/cron/run-scheduled/route.ts:149-209 | the report of the seven days before today's midnight, with its deliveries, stamps and log entry |
| CronRoutes.RunWeeklyIfAny | src/app/api/cron/run-scheduled/route.ts:62-65 | the same for the weekly batch |
| CronRoutes.RunMonthlyIfAny | src/app/api/cron/run-scheduled/route.ts:68-71 | the same for the monthly batch |
| CronRoutes.RunDueReports | src/app/api/cron/run-scheduled/route.ts:55-71 | daily, then weekly, then monthly; attempts are numbered across the three runs; the stamps are the union of the three batches; the log gets their entries in order |
| CronRoutes.DueSchedules | src/app/api/cron/run-scheduled/route.ts:33-68 | the batches are exactly the active schedules of each due frequency, and the selection is empty exactly when all three are |
| CronRoutes.RunScheduled | src/app/api/cron/run-scheduled/route.ts:19-85 | 401 exactly without the secret; "no active schedules" exactly when nothing is due, changing nothing; otherwise the due runs with their summaries, stamps and log entries |
| CronRoutes.DailyReportRoute | src/app/api/cron/daily-report/route.ts:7-164 | 401 exactly without the secret, changing nothing; otherwise today's report mailed to every recipient of the active DAILY schedules, which are stamped and logged |
| CronRoutes.WeeklyReportRoute | src/app/api/cron/weekly-report/route.ts:7-173 | the same for the Monday-based week and the active WEEKLY schedules |
| CronRoutes.MonthlyReportRoute | src/app/api/cron/monthly-report/route.ts:7-191 | the same for the current month, with the previous month's net, and the active MONTHLY schedules |
| Kanban.TasksByStatusSpec | src/components/projects/kanban-board.tsx:40-44 | a column holds exactly the cards of its status, each as often as stored, by ascending order |
| Kanban.ColumnOthers | src/components/projects/kanban-board.tsx:72-79 | every other card of the column, each once, by ascending order |
| Kanban.PickedColumn | src/components/projects/kanban-board.tsx:72-79 | filtering and sorting positions yields that list |
| Kanban.Splice | src/components/projects/kanban-board.tsx:82 | the card is inserted at the index, or appended past the end, and the other cards keep their relative order |
| Kanban.Renumber | src/components/projects/kanban-board.tsx:89-91 | renumbering changes only `order` fields |
| Kanban.RenumberSpec | src/components/projects/kanban-board.tsx:89-91 | card j of a list without repeats gets order j, and cards outside the list are untouched |
| Kanban.DestList | src/components/projects/kanban-board.tsx:77-82 | the destination list holds every other destination card once, plus the moved card at the drop index (last when the index is past the end) |
| Kanban.SplicedColumn | src/components/projects/kanban-board.tsx:82 | after the splice the list has no repeats and holds the old cards and the moved one |
| Kanban.MoveCard | src/components/projects/kanban-board.tsx:85-86 | the moved card takes the destination status |
| Kanban.DragResult | src/components/projects/kanban-board.tsx:66-101 | a move keeps the number of cards, and no card changes id, title or priority |
| Kanban.PlacedSpec | src/components/projects/kanban-board.tsx:82-91 | after the splice and the renumbering, destination card j has the destination status and order j |
| Kanban.DragSourceDisjoint | src/components/projects/kanban-board.tsx:72-82 | when the columns differ, the remaining source cards are not in the destination list |
| Kanban.DragRenumbersDestination | src/components/projects/kanban-board.tsx:82-98 | on the final board the destination column is numbered 0..n-1 in its new sequence |
| Kanban.DragDestinationMembers | src/components/projects/kanban-board.tsx:77-91 | with distinct ids, a card ends in the destination column exactly when it is in the spliced list |
| Kanban.DragRenumbersSource | src/components/projects/kanban-board.tsx:93-98 | when the columns differ, the rest of the source column keeps its sequence and is numbered 0..m-1 |
| Kanban.DragLeavesOthers | src/components/projects/kanban-board.tsx:66-101 | every card outside the two columns is untouched |
| Kanban.MoveCards | src/components/projects/kanban-board.tsx:46-91 | a drop outside, back in place or of an unknown card moves nothing; otherwise the board after the move is `DragResult` |
| Kanban.RenumberColumn | src/components/projects/kanban-board.tsx:89-91 | the `forEach` loop computes `Renumber` |
| Kanban.KanbanBoard.constructor | src/components/projects/kanban-board.tsx:33-34 | the board starts with the initial tasks, sharing its card objects with them |
| Kanban.KanbanBoard.ReceiveInitialTasks | src/components/projects/kanban-board.tsx:36-38 | new initial tasks replace the board's tasks, sharing their card objects |
| Kanban.KanbanBoard.GetTasksByStatus | src/components/projects/kanban-board.tsx:40-44 | the shown column holds exactly that status's cards, by order |
| Kanban.KanbanBoard.HandleDragEnd | src/components/projects/kanban-board.tsx:46-128 | a drop outside, a drop back in place or an unknown card changes nothing; otherwise the move is written into the card objects the initial tasks share, so the board shows the move whether or not the server accepts it |
| Kanban.RefusedMoveStaysMoved | src/components/projects/kanban-board.tsx:66-124 | a card dragged from TODO to DONE still reads DONE after the rollback to `initialTasks` |
| Kanban.CopyingKanbanBoard.constructor | src/components/projects/kanban-board.tsx:33-34 | the board starts with its own copy of the initial tasks |
| Kanban.CopyingKanbanBoard.ReceiveInitialTasks | src/components/projects/kanban-board.tsx:36-38 | new initial tasks replace the board's tasks; the initial tasks are kept apart |
| Kanban.CopyingKanbanBoard.HandleDragEnd | src/components/projects/kanban-board.tsx:46-128 | with copied cards: nothing changes without a move; otherwise the move is shown when the server accepts it and the pre-drag initial tasks when it refuses |
| Permissions.GetUserFilter | src/lib/permissions.ts:8-10 | no owner filter exactly for an administrator, otherwise the caller's id |
| Permissions.NonAdminAccess | src/lib/permissions.ts:12-28 | for a non-administrator, access means holding a member row, and managing means holding an OWNER row |
| Permissions.ManageImpliesAccess | src/lib/permissions.ts:12-28 | whoever may manage a project may access it |
| Permissions.PermissionsMonotone | src/lib/permissions.ts:12-28 | more member rows never take access or management away |
| Domain.ParseTaskStatus | src/lib/validations/task.ts:6 | reads exactly the five status names, each back to its own value |
| Domain.TaskStatusRank | src/app/api/tasks/route.ts:84-87 | the enum position the database sorts by |
| Domain.ParseTaskPriority | src/lib/validations/task.ts:7 | reads exactly the four priority names |
| Domain.ParseProjectStatus | src/lib/validations/project.ts:6 | reads exactly the five project status names |
| Domain.ParseTransactionType | src/lib/validations/transaction.ts:4 | reads exactly INCOME and EXPENSE |
| Domain.ParseFrequency | src/app/api/reports/route.ts:10 | reads exactly DAILY, WEEKLY and MONTHLY |
| Domain.ParseInvoiceStatus | src/app/api/invoices/route.ts:17 | reads exactly the invoice status names |
| Validation.TextAtLeast | src/lib/validations/task.ts:4 | `z.string().min(k, msg)` passes exactly a string of at least k characters; otherwise msg, or the type issue for a non-string |
| Validation.OptionalText | src/lib/validations/task.ts:5 | `z.string().optional()` passes an absent value or a string |
| Validation.EmailText | src/lib/validations/user.ts:5 | `z.string().email(msg)` passes exactly an email string |
| Validation.EnumText | src/lib/validations/task.ts:6-7 | `z.enum` passes exactly a listed name, read as its value |
| Validation.PositiveNumber | src/lib/validations/transaction.ts:5 | `z.number().positive(msg)` passes exactly a number above 0 |
| Validation.NonNegativeNumber | src/lib/validations/invoice.ts:6 | `z.number().min(0, msg)` passes exactly a number of at least 0 |
| Validation.ParseCategory | src/lib/validations/category.ts:3-10 | accepts exactly the bodies the schema describes, keeping the name, type, colour and the icon (absent exactly when not given); a bad type always reads "Kategori türü gereklidir" |
| Validation.ParseInvoiceItem | src/lib/validations/invoice.ts:3-7 | accepts exactly an item with a description, a positive quantity and a unit price of at least 0, and keeps them |
| Validation.ParseItems | src/lib/validations/invoice.ts:15 | every item must pass; the items are kept in order |
| Validation.ItemList | src/lib/validations/invoice.ts:15 | at least one item, every one valid |
| Validation.OptionalEmailOrEmpty | src/lib/validations/invoice.ts:11 | passes exactly an absent value, "", or an email |
| Validation.DateObject | src/lib/validations/invoice.ts:12-13 | `z.date()` rejects every JSON value |
| Validation.InvoiceFields | src/lib/validations/invoice.ts:9-16 | with the dates already read, accepts exactly the valid bodies and keeps every field; a rejected date rejects the body |
| Validation.InvoiceAsWrittenRejectsAll | src/lib/validations/invoice.ts:12-13 | the schema as declared rejects every JSON request body |
| Validation.CoercedDate | src/lib/validations/invoice.ts:12-13 | a date string passes exactly when it reads as a valid date |
| Validation.ParseInvoice | src/lib/validations/invoice.ts:9-16 | accepts exactly the bodies with a client name, an optional email, two readable dates, optional notes and at least one valid item, and keeps every field and item |
| Validation.OptionalBudget | src/lib/validations/project.ts:8 | absent and null both mean no budget; a given budget is at least 0 |
| Validation.ParseProject | src/lib/validations/project.ts:3-11 | accepts exactly the bodies the schema describes, keeping the name, status, colour, the description, startDate and endDate (each absent exactly when not given) and the budget's number (none for absent or `null`), which is never negative |
| Validation.ParseTask | src/lib/validations/task.ts:3-11 | accepts exactly the bodies the schema describes and keeps title, description, status, priority, project, assignee and due date |
| Validation.ParseTransaction | src/lib/validations/transaction.ts:3-9 | accepts exactly the bodies the schema describes and keeps every field; the date is only a non-empty string |
| Validation.ParseUser | src/lib/validations/user.ts:3-7 | accepts exactly a name, an email and a password of at least 6 characters; the first failing key gives its own message |
| Validation.OptionalPassword | src/lib/validations/user.ts:12 | absent, "" or at least 6 characters; 1 to 5 characters reads "Şifre en az 6 karakter olmalıdır" |
| Validation.ParseUserEdit | src/lib/validations/user.ts:9-13 | as the create schema, but the password may be absent or empty; it is kept as given, absent exactly when the field is absent |
| Validation.UserCreateImpliesEdit | src/lib/validations/user.ts:3-13 | every body the create schema accepts, the edit schema accepts with the same fields |
| TasksApi.ProjectMembers | src/app/api/tasks/reorder/route.ts:29-38 | the members of the task's project |
| TasksApi.NonNegativeInteger | src/app/api/tasks/reorder/route.ts:11 | passes exactly a whole number of at least 0 |
| TasksApi.ParseReorder | src/app/api/tasks/reorder/route.ts:8-12 | accepts exactly a non-empty task id, a task status and a whole order of at least 0 |
| TasksApi.Reorder | src/app/api/tasks/reorder/route.ts:14-106 | 401, 400, 404 and 403 change nothing; otherwise exactly that task's status and order change and its `updatedAt` is the request time |
| TasksApi.MovedToDoneCountedWhenMoved | src/app/api/tasks/reorder/route.ts:60-65 | a task the reorder moves to DONE is counted as completed by the daily report exactly when the move falls in the report window |
| TasksApi.ListTasks | src/app/api/tasks/route.ts:8-98 | 401 exactly without a signed-in user; 500 for an unknown status; otherwise the listing |
| TasksApi.TaskListingSpec | src/app/api/tasks/route.ts:24-88 | exactly the matching tasks of the caller's projects, sorted by status and then order |
| TasksApi.StatusThenOrderTotal | src/app/api/tasks/route.ts:84-87 | the ordering is a total preorder |
| TasksApi.HighestOrder | src/app/api/tasks/route.ts:141-149 | the largest order in the project's column, none exactly for an empty column |
| TasksApi.NextOrder | src/app/api/tasks/route.ts:155 | one past every order in the column, attained by a card; 1 for an empty column |
| TasksApi.CreateTask | src/app/api/tasks/route.ts:100-205 | 401, 400, 404 and 403 create nothing; a due date the database does not read as a date-time, or an assignee who is not a user, gives 500 and creates nothing; otherwise one task created by the caller at the next order |
| TasksApi.NewTaskLast | src/app/api/tasks/route.ts:140-156 | the new task sorts after every other task of its column |
| ProjectsApi.ListProjects | src/app/api/projects/route.ts:8-60 | 401 exactly without a signed-in user; otherwise the projects the caller is a member of, each once, latest `updatedAt` first |
| ProjectsApi.LaterUpdatedFirstTotal | src/app/api/projects/route.ts:47-49 | ordering by `updatedAt` descending is a total preorder |
| ProjectsApi.LatestUpdateListedFirst | src/app/api/projects/route.ts:19-50 | a member project updated after all others is listed first |
| ProjectsApi.NewProject | src/app/api/projects/route.ts:76-85 | the only member is the creator, as OWNER, and `updatedAt` is the creation time |
| ProjectsApi.CreatorManagesNewProject | src/app/api/projects/route.ts:76-85 | the creator may manage and access the project; another non-administrator may not access it |
| ProjectsApi.CreateProject | src/app/api/projects/route.ts:62-124 | 401 and 400 create nothing; a start or end date the database does not read as a date-time gives 500 and creates nothing; otherwise one project with the caller as OWNER |
| InvoicesApi.TrailingDigits | src/app/api/invoices/route.ts:65 | the longest run of digits that ends the number |
| Text.NatToDigits | src/app/api/invoices/route.ts:67 | `String(n)`: digits only, without a leading zero, a single digit exactly below 10 |
| Text.DigitsRoundTrip | src/app/api/invoices/route.ts:65-67 | reading back the decimal digits of n gives n |
| InvoicesApi.TrailingDigitsAfter | src/app/api/invoices/route.ts:65 | digits after a non-digit are exactly the match |
| InvoicesApi.NextNumber | src/app/api/invoices/route.ts:60-66 | at least 1 |
| InvoicesApi.InvoiceNumber | src/app/api/invoices/route.ts:67 | "FTR-" and at least five digits |
| InvoicesApi.InvoiceNumberShape | src/app/api/invoices/route.ts:67 | the number is written in full, zero-padded only below five digits |
| InvoicesApi.InvoiceNumberRoundTrip | src/app/api/invoices/route.ts:65-67 | reading the trailing digits of a generated number gives back that number |
| InvoicesApi.NumbersFollowOn | src/app/api/invoices/route.ts:60-67 | after invoice n comes invoice n + 1 |
| InvoicesApi.NewInvoice | src/app/api/invoices/route.ts:69-86 | a DRAFT owned by the caller; an empty email or empty notes are stored as null; the items are kept |
| InvoicesApi.CreateInvoice | src/app/api/invoices/route.ts:50-112 | with the schema's dates read from strings: 401, 400 and a taken number create nothing; otherwise one DRAFT numbered one past the last invoice |
| InvoicesApi.ListInvoices | src/app/api/invoices/route.ts:9-48 | 401 exactly without a signed-in user; 500 for an unknown status; otherwise every matching invoice exactly once, newest first, only the caller's own unless an administrator |
| Pagination.LeadingDigits | src/app/api/transactions/route.ts:20-21 | the longest run of digits at the start |
| Pagination.ParseInt | src/app/api/transactions/route.ts:20-21 | NaN exactly when no digit follows the optional sign; the sign decides the sign of the result |
| Pagination.ParseIntRoundTrip | src/app/api/transactions/route.ts:20-21 | `parseInt` reads back what `String` writes, even with trailing non-digits |
| Pagination.IntParam | src/app/api/activity-log/route.ts:19-20 | a missing or empty parameter reads as the default |
| Pagination.PageWindow | src/app/api/activity-log/route.ts:24 | `skip = (page - 1) * limit` and `take = limit`, unless the database refuses them |
| Pagination.Slice | src/app/api/activity-log/route.ts:59-60 | at most `take` rows, starting after `skip` |
| Pagination.TotalPages | src/app/api/activity-log/route.ts:69 | `Math.ceil(total / limit)`: the fewest pages that hold every row; null for a zero limit |
| Pagination.Paginate | src/app/api/activity-log/route.ts:41-71 | the requested page of the ordered rows, with total, page, limit and page count |
| Pagination.RowOnItsPage | src/app/api/activity-log/route.ts:24-69 | row i is entry i % limit of page i / limit + 1, within the page count |
| Pagination.PagesArePrefix | src/app/api/activity-log/route.ts:24-60 | the first n pages are the first n * limit rows |
| Pagination.PagesCoverRows | src/app/api/activity-log/route.ts:24-69 | pages 1 to `totalPages` hold every row once, in order |
| TransactionsApi.Bound | src/app/api/transactions/route.ts:36-44 | a date bound applies exactly when it is given |
| TransactionsApi.LaterFirstTotal | src/app/api/transactions/route.ts:52-54 | the ordering is a total preorder |
| TransactionsApi.TransactionListingSpec | src/app/api/transactions/route.ts:24-57 | exactly the caller's matching transactions, latest first |
| TransactionsApi.ListTransactions | src/app/api/transactions/route.ts:8-77 | 401 exactly without a signed-in user; 500 exactly for a bad type, date or window; otherwise the page and the count |
| TransactionsApi.ListingOnlyOwnRows | src/app/api/transactions/route.ts:24-69 | a page holds only the caller's own rows, at most `limit` of them, and the total counts every match |
| TransactionsApi.CreateTransaction | src/app/api/transactions/route.ts:79-113 | 401 and 400 store nothing; an unreadable date or an unknown category gives 500 and stores nothing; otherwise one row owned by the caller; stored dates stay getter readings |
| ActivityLogApi.LogListing | src/app/api/activity-log/route.ts:27-58 | every matching entry exactly once, and of two entries the later logged comes first |
| ActivityLogApi.ListActivity | src/app/api/activity-log/route.ts:7-79 | 401 exactly without a session; 500 exactly for a refused window; otherwise the page and the count |
| ActivityLogApi.DefaultFirstPage | src/app/api/activity-log/route.ts:19-24 | with no parameters, the ten newest entries and the ten-entry page count |
| DashboardStats.MonthKey | src/app/api/dashboard/stats/route.ts:69 | "YYYY-MM", with a dash before the two month digits |
| DashboardStats.MonthDigits | src/app/api/dashboard/stats/route.ts:69 | months 1 to 12 are written with exactly two digits |
| DashboardStats.MonthKeyInjective | src/app/api/dashboard/stats/route.ts:69 | different months have different keys |
| DashboardStats.ChartMonth | src/app/api/dashboard/stats/route.ts:68 | the i-th chart month `new Date(y, m - 11 + i, 1)` is a month in range |
| DashboardStats.ChartKeys | src/app/api/dashboard/stats/route.ts:67-71 | twelve keys |
| DashboardStats.ChartKeysDistinct | src/app/api/dashboard/stats/route.ts:67-71 | the twelve chart months are different months |
| DashboardStats.SinceChartStart | src/app/api/dashboard/stats/route.ts:44-61 | exactly the transactions dated on or after `twelveMonthsAgo` |
| DashboardStats.MapSet | src/app/api/dashboard/stats/route.ts:70 | `Map.set` keeps the place of an existing key and appends a new one |
| DashboardStats.Credit | src/app/api/dashboard/stats/route.ts:80-84 | a transaction's amount is added to exactly one side of its month |
| DashboardStats.BucketSnoc | src/app/api/dashboard/stats/route.ts:74-86 | one more transaction credits only its own month |
| DashboardStats.ZeroEntries | src/app/api/dashboard/stats/route.ts:66-71 | one zero entry per month, in order |
| DashboardStats.Populate | src/app/api/dashboard/stats/route.ts:73-86 | each month's entry holds that month's sums, and a transaction outside the months changes nothing |
| DashboardStats.MonthlyData | src/app/api/dashboard/stats/route.ts:43-92 | given stored dates with in-range fields, twelve months, oldest first, each with the income and expense of its transactions |
| DashboardStats.KeysTotalSnoc | src/app/api/dashboard/stats/route.ts:74-86 | a transaction is added to the months' total at most once |
| DashboardStats.MonthTotalsAddUp | src/app/api/dashboard/stats/route.ts:74-86 | when every transaction falls in a listed month, the monthly totals add up to the type total |
| DashboardStats.ChartAccountsForAll | src/app/api/dashboard/stats/route.ts:43-92 | when every month key is a chart key, the chart accounts for every transaction |
| DashboardStats.ChartMonthIffWindow | src/app/api/dashboard/stats/route.ts:44-83 | for a date with in-range fields, its `getMonth` key is a chart key exactly when its time lies from `twelveMonthsAgo` to the end of the current month |
| DashboardStats.KeyInChart | src/app/api/dashboard/stats/route.ts:67-83 | a month key is a chart key exactly when its month is one of the twelve |
| DashboardStats.TimeInChart | src/app/api/dashboard/stats/route.ts:44-52 | a date is in the window exactly when its month is one of the twelve |
| DashboardStats.ChartCoversWindow | src/app/api/dashboard/stats/route.ts:43-92 | with in-range stored dates and nothing dated after the current month, the chart accounts for every transaction since `twelveMonthsAgo` |
| DashboardStats.OpenCount | src/app/api/dashboard/stats/route.ts:35-41 | the active count is the number of tasks that are not DONE |
| DashboardStats.DueOrderTotal | src/app/api/dashboard/stats/route.ts:121-123 | the due-date ordering is a total preorder |
| DashboardStats.SoonestSpec | src/app/api/dashboard/stats/route.ts:95-125 | at most five pending tasks with a due date, soonest first; a pending task is left out only when five are shown, each due no later |
| DashboardStats.FindUser | src/app/api/dashboard/stats/route.ts:135-139 | the user with the id, or none exactly when there is none |
| DashboardStats.FindProject | src/app/api/dashboard/stats/route.ts:115-119 | the project with the id, or none exactly when there is none |
| DashboardStats.AssigneeName | src/app/api/dashboard/stats/route.ts:159 | a name is shown only when it is the non-empty name of the task's assignee |
| DashboardStats.UpcomingRows | src/app/api/dashboard/stats/route.ts:153-161 | rows exist exactly when every task's project exists, and each row carries its task's fields |
| DashboardStats.Newest | src/app/api/dashboard/stats/route.ts:128-145 | at most ten entries, newest first |
| DashboardStats.RecentRows | src/app/api/dashboard/stats/route.ts:162-169 | rows exist exactly when every entry's user exists |
| DashboardStats.GetStats | src/app/api/dashboard/stats/route.ts:8-178 | given stored dates with in-range fields, 401 exactly without a session; 500 exactly when a row's project or user is missing; otherwise the totals, net, open count, chart and rows |
| ReportsApi.ParseRecipients | src/app/api/reports/route.ts:11 | passes exactly when every recipient is an email string; otherwise the first bad one's issue |
| ReportsApi.RecipientList | src/app/api/reports/route.ts:11 | at least one recipient; an empty array reads "En az bir alıcı gereklidir" |
| ReportsApi.ActiveFlag | src/app/api/reports/route.ts:12 | an absent flag is true |
| ReportsApi.ParseSchedule | src/app/api/reports/route.ts:8-13 | accepts exactly the valid bodies and keeps the name, frequency, recipients and the given `isActive` flag (true when absent); the first failing key gives the message |
| ReportsApi.FrequencyNameOf | src/app/api/reports/route.ts:10 | the parsed frequency is the name given |
| ReportsApi.ListSchedules | src/app/api/reports/route.ts:15-49 | 401 exactly without a session; otherwise every schedule, newest first |
| ReportsApi.CreateSchedule | src/app/api/reports/route.ts:51-115 | 401 and 400 change nothing; otherwise one schedule owned by the caller, never run, plus its "created" log entry, answered with 201 |
| ReportsApi.CreatedListedFirst | src/app/api/reports/route.ts:26-39 | a new schedule heads the list |
| ReportsApi.CreatedJoinsCronBatch | src/app/api/reports/route.ts:12 | a schedule created without a flag joins the next cron batch of its frequency, after the older ones |
| UsersApi.UserByEmail | src/app/api/users/route.ts:66-69 | none exactly when no user has the address |
| UsersApi.UserByEmailUnique | src/app/api/users/route.ts:66-69 | with unique addresses, the lookup finds the one user |
| UsersApi.ListUsers | src/app/api/users/route.ts:9-41 | 401 exactly without a session; otherwise every user, newest first, without the password hash |
| UsersApi.CreateUser | src/app/api/users/route.ts:43-119 | 401, 400 and a taken address change nothing; otherwise one user with the hashed password plus a log entry; addresses stay unique |
| UsersApi.CreatedFoundByEmail | src/app/api/users/route.ts:66-76 | after creation the address finds the new user, so a second request is refused |
| Navigation.Middleware | src/middleware.ts:14-37 | redirect to "/giris" with the path as `callbackUrl` exactly for a guarded path without a token |
| Navigation.Guard | src/middleware.ts:40-50 | deployed behind its matcher, the middleware redirects exactly on matched paths without a token |
| Navigation.MatchedIsProtected | src/middleware.ts:25-27 | every matched path passes the prefix test |
| Navigation.PrefixTestLooserThanMatcher | src/middleware.ts:25-27 | "/dashboardx" passes the prefix test but is never matched |
| Navigation.LoginPageOpen | src/middleware.ts:14-22 | the sign-in page is not guarded, so the redirect cannot loop |
| Navigation.Segments | src/components/layout/header.tsx:36 | non-empty pieces without slashes |
| Navigation.Label | src/components/layout/header.tsx:40 | the table's label or the segment itself, never empty |
| Navigation.Breadcrumbs | src/components/layout/header.tsx:38-43 | one crumb per segment, with its link and label; only the last is marked |
| Navigation.HrefExtendsPrevious | src/components/layout/header.tsx:39 | each link extends the previous one by a slash and the segment |
| Navigation.SplitOfJoin | src/components/layout/header.tsx:36-39 | splitting a joined path at the separator gives back its segments |
| Text.SplitJoin | src/components/layout/header.tsx:36 | joining the pieces of `split` with the separator gives back the string |
| Navigation.CrumbLinksBack | src/components/layout/header.tsx:36-39 | a crumb's link leads to the page whose segments are the prefix up to it |
| Navigation.SlashesHaveNoCrumbs | src/components/layout/header.tsx:36 | the root has no crumbs |
| Navigation.TrailingSlashIgnored | src/components/layout/header.tsx:36 | a trailing slash adds no crumb |
| Navigation.ActiveLinkOpensGroup | src/components/layout/app-sidebar.tsx:74-76 | a highlighted finance or report link always has its group open |
| Navigation.GroupLooserThanLinks | src/components/layout/app-sidebar.tsx:74-75 | "/finansX" opens the finance group but highlights none of its links |
| Navigation.FirstCharsAreWordStarts | src/components/layout/app-sidebar.tsx:78-80 | the first characters of the pieces of `split(" ")` are the first characters of the words |
| Navigation.Initials | src/components/dashboard/recent-activity.tsx:80-87 | at most two characters: the upper-cased first characters of the words |
| Navigation.SidebarInitials | src/components/layout/app-sidebar.tsx:78-83 | one or two characters: the initials, or "?" without a name or without any word |
| Navigation.WordStartsOfTwoWords | src/components/layout/app-sidebar.tsx:78-80 | two words start at their first letters |
| Navigation.WordStartsInsideWord | src/components/layout/app-sidebar.tsx:78-80 | the characters after a word's first one start no word |
| Navigation.InitialsOfTwoWords | src/components/layout/app-sidebar.tsx:78-83 | a first and a last name give their two upper-cased initials |
| ActivityLabels.ElapsedSince | src/components/dashboard/recent-activity.tsx:63-76 | each reading is the floor of the difference in its unit; under a minute (or in the future) is "just now"; from a week on, the date, with the year after 365 whole days |
| ActivityLabels.FormatRelativeTime | src/components/dashboard/recent-activity.tsx:60-78 | "Az önce", "n dakika önce", "n saat önce", "n gün önce" or the date, by range |
| ActivityLabels.Translate | src/components/dashboard/recent-activity.tsx:90-91 | the table's word, or the lower-cased key when it is missing |
| ActivityLabels.IconAsWritten | src/components/dashboard/recent-activity.tsx:95-98 | the table's icon, the generic one exactly for a missing key |
| ActivityLabels.ColorAsWritten | src/components/dashboard/recent-activity.tsx:100-102 | the table's colour, gray for a missing key |
| ActivityLabels.LoggedKeysMissTables | src/components/dashboard/recent-activity.tsx:42-57 | a logged "created" "user" entry reads "created user" with the generic gray icon |
| ActivityLabels.LoggedKeysTranslated | src/components/dashboard/recent-activity.tsx:26-57 | with upper-cased keys, the logged entries "created" "user" and "updated" "task" read in Turkish with their own icons |
| ActivityLabels.TableKeysTranslated | src/components/dashboard/recent-activity.tsx:26-102 | with upper-cased keys, every action and entity type whose upper case is a table key reads the table's words, icon and colour |
| ActivityLabels.ActionTextIgnoresCase | src/components/dashboard/recent-activity.tsx:89-98 | the corrected lookup ignores the case of the keys |
| ActivityLabels.ActionTextAgreesOnUpperKeys | src/components/dashboard/recent-activity.tsx:89-98 | on upper-case keys the corrected lookup reads as the one written |
| ActivityLabels.CeilDiv | src/components/dashboard/upcoming-tasks.tsx:44 | `Math.ceil(a / b)` is the least q with a ≤ q·b |
| ActivityLabels.Classify | src/components/dashboard/upcoming-tasks.tsx:46-59 | overdue exactly below 0, "Bugün" exactly at 0, "Yarın" exactly at 1, days left from 2 to 7, the date after |
| ActivityLabels.DueDaysAsWritten | src/components/dashboard/upcoming-tasks.tsx:43-44 | the difference in days, rounded up |
| ActivityLabels.DueLabelAsWritten | src/components/dashboard/upcoming-tasks.tsx:38-60 | "Belirsiz" exactly without a date, otherwise the label of the rounded-up days |
| ActivityLabels.LaterTodayReadsTomorrow | src/components/dashboard/upcoming-tasks.tsx:43-51 | a task due later today reads "Yarın" where calendar days read "Bugün"; a task due yesterday, less than a day ago, reads "Bugün" where calendar days read "1 gün geçti" |
| ActivityLabels.YesterdayEveningExample | src/components/dashboard/upcoming-tasks.tsx:43-51 | a task due yesterday at 23:00, read today at 10:00, reads "Bugün"; by calendar days it reads "1 gün geçti" |
| ActivityLabels.MidnightExample | src/components/dashboard/upcoming-tasks.tsx:43-51 | at midnight a task due at 01:00 the same day reads "Yarın" |
| ActivityLabels.DueDays | src/components/dashboard/upcoming-tasks.tsx:43-44 | zero exactly on the same calendar day, negative exactly on an earlier day |
| ActivityLabels.DueLabelOf | src/components/dashboard/upcoming-tasks.tsx:38-60 | "Belirsiz" exactly without a date, otherwise the label of the calendar-day difference |
| ActivityLabels.FormatDue | src/components/dashboard/upcoming-tasks.tsx:38-39 | no date reads "Belirsiz" |
| ActivityLabels.CalendarDaysRead | src/components/dashboard/upcoming-tasks.tsx:38-66 | "Bugün" exactly today, "Yarın" exactly tomorrow; a past label is always overdue, and an overdue task never reads as due ahead |

## Left out

- Time zones and daylight saving time: local time is treated as a fixed offset from UTC. Dates are the ECMAScript day and month arithmetic on local fields.
- Locale date formatting (`toLocaleDateString("tr-TR")`) is a parameter.
- The rendered e-mail bodies, subjects and sender addresses are left out. The mail provider is an oracle saying whether each attempt succeeded.
- Each run stamps `lastRunAt` with a single time. The source takes a fresh `new Date()` per schedule.
- The `details` of a 500 answer and anything thrown by the database other than the modelled failures are left out. The console logging is left out.
- Which strings a `DateTime` column accepts (an ISO-8601 date and time, so not `"2024-06-01"` or `""`) is a parameter, `storable`, of `TasksApi.CreateTask` and `ProjectsApi.CreateProject`. An accepted date is stored as the string that was given.
- Floating point: amounts are integers. Sums are exact, so rounding in JavaScript number addition is not modelled.
- A negative `limit` or a window the database refuses is answered with 500. Prisma would read a negative `take` as taking from the end.
- `parseInt` skipping leading whitespace and reading a `0x` prefix is not modelled.
- Database tie order is a stable sort by insertion order. The order of rows with equal sort keys is unspecified in the source.
- The `date: "asc"` ordering of the chart query is not modelled; the chart sums do not depend on it.
- DashboardStats.MonthlyData and DashboardStats.GetStats: a stored date is held as the fields its getters report, so both require those fields in range (`Domain.GetterDates`). `TransactionsApi.CreateTransaction` keeps this, given a date reading with in-range fields. A `Date` whose fields are out of range is not represented.
- Log ids, creation times and the metadata JSON's key order are not modelled.
- The joined columns are left out:
  - the users on schedules and activities;
  - the categories on the daily report;
  - the `image` and `createdAt` of users;
  - the labels and comment counts of tasks.
- Strings are counted in characters, not in UTF-16 code units.
- Case mapping covers ASCII letters only. JavaScript's `toUpperCase`/`toLowerCase` also map non-ASCII letters, and `"İ".toLowerCase()` is two code units.
- The label tables are plain objects. A key such as "constructor" would find a prototype member, which is not modelled.
- zod's built-in messages are represented by their issue code; only the messages written in the schemas are spelled out.
- The email pattern of zod is the parameter `isEmail`.
- bcrypt is the parameter `hash`, so its salt and cost are not modelled.
- In the dashboard, a task whose project or a log entry whose user is missing fails the route with 500. The source throws on `task.project.name` and `activity.user.name`, and the catch answers 500.
- The category routes are not part of this model; only the category schema is.
- InvoicesApi.CreateInvoice: modelled with the corrected schema. As written, every signed-in request is answered 400 (`Validation.InvoiceAsWrittenRejectsAll`).
- A body that is not JSON makes `request.json()` throw, and the catch answers 500 on every POST and PATCH route. The routes here start from the parsed body, so that 500 is not modelled.
- ReportData.AddTo: a category named "__proto__" or "constructor" would read an `Object.prototype` member through `acc[name] || 0`. Such names are treated as plain keys.
- ReportData.TopCategories: follows `AddTo` for those two names, so their totals are not modelled either.
- The task and invoice detail routes (`[id]`) are not part of this model.
- Kanban.KanbanBoard: card objects are values, and the board's sharing of them with `initialTasks` is the invariant `SharesCards`. That covers the initial list, which is the only one the rollback reads; other references to the cards are not modelled.
- The toast notifications and the React rendering of the kanban board are left out.
- ActivityLabels.ElapsedMonotone: the readings are compared by rank only, not by the exact text.
- ActivityLabels.FormatDue: states only the text of a missing date. The other texts follow `DueLabelOf`, whose contract and `CalendarDaysRead` carry the meaning.

## Findings

| source | as written | input that shows it | evidently intended | confidence | as-written member | corrected member |
|---|---|---|---|---|---|---|
| src/lib/validations/invoice.ts:12-13 | `issueDate: z.date()` and `dueDate: z.date()` accept only `Date` objects, and a JSON request body carries dates as strings | any body, e.g. `{"clientName":"A","issueDate":"2024-01-01","dueDate":"2024-02-01","items":[{"description":"x","quantity":1,"unitPrice":1}]}`, is refused with 400 | the dates are read from strings (`z.coerce.date()`), so a complete invoice is created | high (not executed) | Validation.InvoiceAsWrittenRejectsAll | Validation.ParseInvoice |
| src/components/dashboard/recent-activity.tsx:42-57, 89-102 | the translation, icon and colour tables are keyed in upper case, and the routes log lower-case keys (src/app/api/users/route.ts:100-101) | an entry logged as action "created" on entity "user" reads "created user" with the generic gray icon | the entry reads "oluşturdu kullanıcıyı" with the user icon | high (not executed) | ActivityLabels.LoggedKeysMissTables | ActivityLabels.TableKeysTranslated |
| src/components/dashboard/upcoming-tasks.tsx:43-51 | the day difference is the time difference rounded up to whole days | a task due yesterday at 23:00, read today at 10:00, reads "Bugün"; a task due later today reads "Yarın". Both need a due time other than midnight | calendar days: "1 gün geçti" for yesterday, "Bugün" for a due date today | low (not executed) | ActivityLabels.YesterdayEveningExample | ActivityLabels.CalendarDaysRead |
| src/components/projects/kanban-board.tsx:66-91, 124 | `[...tasks]` copies only the array, so the move is written into the card objects that `initialTasks` also holds, and the rollback restores the moved cards | a card dragged from TODO to DONE that the server refuses still shows in DONE | the rollback shows the board as it was before the drag | high (not executed) | Kanban.RefusedMoveStaysMoved | Kanban.CopyingKanbanBoard.HandleDragEnd |
