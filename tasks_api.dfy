/**
 * The task routes: the listing with its optional filters and its membership restriction,
 * the creation of a task at the end of its column, and the reorder update that moves one
 * task to a status and position.
 */
module TasksApi {
  import opened Common
  import opened Domain
  import opened Calendar
  import opened Sorting
  import opened Store
  import opened Permissions
  import opened Validation
  import opened Http
  import CronRoutes

  /** The members of the project with id `projectId`; none when there is no such project. */
  function ProjectMembers(projects: seq<Project>, projectId: string): (r: seq<ProjectMember>)
    ensures (exists i :: 0 <= i < |projects| && projects[i].id == projectId) ==>
      exists i :: 0 <= i < |projects| && projects[i].id == projectId && r == projects[i].members
  {
    var k := IndexWhere(projects, (p: Project) => p.id == projectId);
    if k.None? then [] else projects[k.value].members
  }

  /** The caller is a member of the task's project. */
  predicate VisibleTo(projects: seq<Project>, t: Task, userId: string) {
    IsMember(ProjectMembers(projects, t.projectId), userId)
  }

  // ---------------------------------------------------------------- PATCH /api/tasks/reorder

  datatype ReorderData = ReorderData(taskId: string, status: TaskStatus, order: nat)

  /** `z.number().int().min(0)`: a whole number of at least 0. */
  function NonNegativeInteger(v: Option<Json>): (r: Checked<nat>)
    ensures r.Pass? <==> IsNumber(v) && NumberOf(v).Floor as real == NumberOf(v) && NumberOf(v) >= 0.0
    ensures r.Pass? ==> r.value as real == NumberOf(v)
  {
    if !IsNumber(v) then Reject(TypeIssue(v))
    else if v.value.n.Floor as real != v.value.n then Reject(Default(NotInteger))
    else if v.value.n < 0.0 then Reject(Default(TooSmall))
    else Pass(v.value.n.Floor)
  }

  /** `reorderSchema`: a non-empty task id, one of the five statuses, a whole order of at least 0. */
  function ParseReorder(body: Json): (r: Checked<ReorderData>)
    ensures r.Pass? <==>
      && body.JObject?
      && IsText(Get(body, "taskId")) && |TextOf(Get(body, "taskId"))| >= 1
      && IsText(Get(body, "status")) && ParseTaskStatus(TextOf(Get(body, "status"))).Some?
      && IsNumber(Get(body, "order")) && NumberOf(Get(body, "order")).Floor as real == NumberOf(Get(body, "order"))
      && NumberOf(Get(body, "order")) >= 0.0
    ensures r.Pass? ==>
      && r.value.taskId == TextOf(Get(body, "taskId"))
      && TaskStatusName(r.value.status) == TextOf(Get(body, "status"))
      && r.value.order as real == NumberOf(Get(body, "order"))
  {
    if !body.JObject? then Reject(TypeIssue(Some(body)))
    else
      var taskId := TextAtLeast(Get(body, "taskId"), 1, Default(TooSmall));
      var status := EnumText(Get(body, "status"), ParseTaskStatus, None);
      var order := NonNegativeInteger(Get(body, "order"));
      if taskId.Reject? then Reject(taskId.message)
      else if status.Reject? then Reject(status.message)
      else if order.Reject? then Reject(order.message)
      else Pass(ReorderData(taskId.value, status.value, order.value))
  }

  /**
   * `PATCH /api/tasks/reorder`: 401 without a signed-in user (before the body is read),
   * 400 for a body the schema refuses, 404 for an unknown task, 403 when the caller is not
   * a member of the task's project; otherwise exactly that task's status and order are set,
   * the database stamps its `updatedAt` with the time of the update, `now`, and no other
   * task, sibling or not, changes.
   */
  method Reorder(db: Db, session: Option<Session>, body: Json, now: DateTime) returns (resp: Response<Task>)
    modifies db`tasks
    ensures !SignedIn(session) ==> resp == Failure(401, Given(Unauthorized)) && db.tasks == old(db.tasks)
    ensures SignedIn(session) && ParseReorder(body).Reject? ==>
      resp == Failure(400, Given(InvalidData)) && db.tasks == old(db.tasks)
    ensures SignedIn(session) && ParseReorder(body).Pass? ==>
      var req := ParseReorder(body).value;
      var k := IndexWhere(old(db.tasks), (t: Task) => t.id == req.taskId);
      && (k.None? ==> resp == Failure(404, Given(NotFound)) && db.tasks == old(db.tasks))
      && (k.Some? && !VisibleTo(db.projects, old(db.tasks)[k.value], session.value.userId) ==>
            resp == Failure(403, Given(Unauthorized)) && db.tasks == old(db.tasks))
      && (k.Some? && VisibleTo(db.projects, old(db.tasks)[k.value], session.value.userId) ==>
            && db.tasks == old(db.tasks)[k.value := old(db.tasks)[k.value].(status := req.status, order := req.order, updatedAt := now)]
            && resp == Success(200, db.tasks[k.value]))
  {
    if !SignedIn(session) {
      return Failure(401, Given(Unauthorized));
    }
    var parsed := ParseReorder(body);
    if parsed.Reject? {
      return Failure(400, Given(InvalidData));
    }
    var req := parsed.value;
    var k := IndexWhere(db.tasks, (t: Task) => t.id == req.taskId);
    if k.None? {
      return Failure(404, Given(NotFound));
    }
    var task := db.tasks[k.value];
    if !IsMember(ProjectMembers(db.projects, task.projectId), session.value.userId) {
      return Failure(403, Given(Unauthorized));
    }
    db.tasks := db.tasks[k.value := task.(status := req.status, order := req.order, updatedAt := now)];
    resp := Success(200, db.tasks[k.value]);
  }

  /**
   * A task moved to DONE carries the time of the move as its `updatedAt`, so the reports'
   * completed-tasks query over any window holding that time counts it, and a query over a
   * window before it does not.
   */
  lemma MovedToDoneCountedWhenMoved(ts: seq<Task>, k: nat, order: nat, now: DateTime, lo: int, hi: int)
    requires k < |ts|
    ensures var moved := ts[k := ts[k].(status := DONE, order := order, updatedAt := now)];
      moved[k] in CronRoutes.DoneUpdatedBetween(moved, lo, hi) <==> lo <= now.TimeValue() < hi
  {
    var moved := ts[k := ts[k].(status := DONE, order := order, updatedAt := now)];
    if moved[k] in CronRoutes.DoneUpdatedBetween(moved, lo, hi) {
      var t := moved[k];
      assert t.status == DONE && lo <= t.updatedAt.TimeValue() < hi;
    }
  }

  // ---------------------------------------------------------------- GET /api/tasks

  /** The `assigneeId`, `projectId` and `status` query parameters. */
  datatype TaskQuery = TaskQuery(assigneeId: Option<string>, projectId: Option<string>, status: Option<string>)

  /** The `where` clause: each filter only when its parameter is non-empty, and always membership. */
  predicate MatchesQuery(projects: seq<Project>, q: TaskQuery, userId: string, t: Task) {
    && (Truthy(q.assigneeId) ==> t.assigneeId == q.assigneeId)
    && (Truthy(q.projectId) ==> t.projectId == q.projectId.value)
    && (Truthy(q.status) ==> TaskStatusName(t.status) == q.status.value)
    && VisibleTo(projects, t, userId)
  }

  /** `orderBy: [{ status: "asc" }, { order: "asc" }]`: by the status's place in the enum, then by order. */
  predicate ByStatusThenOrder(a: Task, b: Task) {
    TaskStatusRank(a.status) < TaskStatusRank(b.status)
    || (TaskStatusRank(a.status) == TaskStatusRank(b.status) && a.order <= b.order)
  }

  function TaskListing(tasks: seq<Task>, projects: seq<Project>, q: TaskQuery, userId: string): seq<Task> {
    SortBy(Filter(tasks, (t: Task) => MatchesQuery(projects, q, userId, t)), ByStatusThenOrder)
  }

  /**
   * `GET /api/tasks`: 401 without a signed-in user; a status parameter that names no task
   * status reaches the database as an invalid enum value, which fails with 500; otherwise
   * the tasks that match the query, in status-then-order order.
   */
  function ListTasks(tasks: seq<Task>, projects: seq<Project>, session: Option<Session>, q: TaskQuery): (r: Response<seq<Task>>)
    ensures !SignedIn(session) <==> r == Failure(401, Given(Unauthorized))
    ensures SignedIn(session) && Truthy(q.status) && ParseTaskStatus(q.status.value).None? ==> r.Failure? && r.status == 500
    ensures r.Success? ==> r.status == 200 && r.body == TaskListing(tasks, projects, q, session.value.userId)
    ensures SignedIn(session) && !(Truthy(q.status) && ParseTaskStatus(q.status.value).None?) ==> r.Success?
  {
    if !SignedIn(session) then Failure(401, Given(Unauthorized))
    else if Truthy(q.status) && ParseTaskStatus(q.status.value).None? then Failure(500, Given(Generic))
    else Success(200, TaskListing(tasks, projects, q, session.value.userId))
  }

  /**
   * The listing holds exactly the stored tasks that match the query (each as often as it is
   * stored), and it is ordered by status and then by order.
   */
  lemma TaskListingSpec(tasks: seq<Task>, projects: seq<Project>, q: TaskQuery, userId: string)
    ensures var r := TaskListing(tasks, projects, q, userId);
      && multiset(r) == multiset(Filter(tasks, (t: Task) => MatchesQuery(projects, q, userId, t)))
      && SortedBy(r, ByStatusThenOrder)
      && (forall t :: t in r <==> t in tasks && MatchesQuery(projects, q, userId, t))
  {
    var matches := (t: Task) => MatchesQuery(projects, q, userId, t);
    var picked := Filter(tasks, matches);
    var r := SortBy(picked, ByStatusThenOrder);
    StatusThenOrderTotal();
    SortBySorted(picked, ByStatusThenOrder);
    forall t ensures t in r <==> t in tasks && matches(t) {
      assert t in r <==> t in multiset(picked);
      if t in tasks && matches(t) {
        var i :| 0 <= i < |tasks| && tasks[i] == t;
        assert t in picked;
      }
    }
  }

  lemma StatusThenOrderTotal()
    ensures IsTotalPreorder(ByStatusThenOrder)
  {
  }

  // ---------------------------------------------------------------- POST /api/tasks

  /** The highest order among the tasks of a project's column, if it has any. */
  function HighestOrder(tasks: seq<Task>, projectId: string, status: TaskStatus): (r: Option<int>)
    ensures r.None? <==> forall i :: 0 <= i < |tasks| ==> !(tasks[i].projectId == projectId && tasks[i].status == status)
    ensures r.Some? ==>
      && (exists i :: 0 <= i < |tasks| && tasks[i].projectId == projectId && tasks[i].status == status && tasks[i].order == r.value)
      && (forall i :: 0 <= i < |tasks| && tasks[i].projectId == projectId && tasks[i].status == status ==> tasks[i].order <= r.value)
  {
    if tasks == [] then None
    else
      var rest := HighestOrder(tasks[1..], projectId, status);
      assert forall i :: 1 <= i < |tasks| ==> tasks[i] == tasks[1..][i - 1];
      if !(tasks[0].projectId == projectId && tasks[0].status == status) then
        (if rest.Some? then
           var j :| 0 <= j < |tasks[1..]| && tasks[1..][j].projectId == projectId && tasks[1..][j].status == status && tasks[1..][j].order == rest.value;
           assert tasks[j + 1] == tasks[1..][j];
           rest
         else rest)
      else if rest.Some? && rest.value > tasks[0].order then
        var j :| 0 <= j < |tasks[1..]| && tasks[1..][j].projectId == projectId && tasks[1..][j].status == status && tasks[1..][j].order == rest.value;
        assert tasks[j + 1] == tasks[1..][j];
        rest
      else Some(tasks[0].order)
  }

  /**
   * `(lastTask?.order ?? 0) + 1`: one past the highest order of the column, or 1 for an
   * empty column, so a new task is placed after every task already in its column.
   */
  function NextOrder(tasks: seq<Task>, projectId: string, status: TaskStatus): (r: int)
    ensures forall i :: 0 <= i < |tasks| && tasks[i].projectId == projectId && tasks[i].status == status ==> tasks[i].order < r
    ensures (forall i :: 0 <= i < |tasks| ==> !(tasks[i].projectId == projectId && tasks[i].status == status)) ==> r == 1
    ensures (exists i :: 0 <= i < |tasks| && tasks[i].projectId == projectId && tasks[i].status == status) ==>
      exists i :: 0 <= i < |tasks| && tasks[i].projectId == projectId && tasks[i].status == status && tasks[i].order == r - 1
  {
    HighestOrder(tasks, projectId, status).GetOr(0) + 1
  }

  /** The row `prisma.task.create` stores: the validated fields, the caller as creator, the next order. */
  function NewTask(data: TaskData, creatorId: string, order: int, id: string, now: DateTime): Task {
    Task(id, data.title, data.description, data.status, data.priority, order, data.dueDate,
         data.projectId, data.assigneeId, creatorId, now, now)
  }

  /**
   * `POST /api/tasks`: 401 without a signed-in user, 400 for a body the schema refuses, 404
   * for an unknown project, 403 for a caller who is not a member of it. The database then
   * refuses, and the route answers 500, when the due date does not read as a date and time
   * (`storable`) or the assignee is not a user. None of these creates anything. Otherwise
   * one task is appended, created by the caller, at the next order of its column.
   */
  method CreateTask(db: Db, session: Option<Session>, body: Json, id: string, now: DateTime,
                    storable: string -> bool) returns (resp: Response<Task>)
    modifies db`tasks
    ensures !SignedIn(session) ==> resp == Failure(401, Given(Unauthorized)) && db.tasks == old(db.tasks)
    ensures SignedIn(session) && ParseTask(body).Reject? ==> resp == Failure(400, Given(InvalidData)) && db.tasks == old(db.tasks)
    ensures SignedIn(session) && ParseTask(body).Pass? ==>
      var data := ParseTask(body).value;
      var p := IndexWhere(db.projects, (p: Project) => p.id == data.projectId);
      && (p.None? ==> resp == Failure(404, Given("Proje bulunamadı")) && db.tasks == old(db.tasks))
      && (p.Some? && !IsMember(db.projects[p.value].members, session.value.userId) ==>
            resp == Failure(403, Given(Unauthorized)) && db.tasks == old(db.tasks))
      && (p.Some? && IsMember(db.projects[p.value].members, session.value.userId)
          && !(DateStorable(data.dueDate, storable) && UserKnown(db.users, data.assigneeId)) ==>
            resp == Failure(500, Given(Generic)) && db.tasks == old(db.tasks))
      && (p.Some? && IsMember(db.projects[p.value].members, session.value.userId)
          && DateStorable(data.dueDate, storable) && UserKnown(db.users, data.assigneeId) ==>
            var task := NewTask(data, session.value.userId, NextOrder(old(db.tasks), data.projectId, data.status), id, now);
            db.tasks == old(db.tasks) + [task] && resp == Success(201, task))
  {
    if !SignedIn(session) {
      return Failure(401, Given(Unauthorized));
    }
    var parsed := ParseTask(body);
    if parsed.Reject? {
      return Failure(400, Given(InvalidData));
    }
    var data := parsed.value;
    var p := IndexWhere(db.projects, (p: Project) => p.id == data.projectId);
    if p.None? {
      return Failure(404, Given("Proje bulunamadı"));
    }
    if !IsMember(db.projects[p.value].members, session.value.userId) {
      return Failure(403, Given(Unauthorized));
    }
    if !(DateStorable(data.dueDate, storable) && UserKnown(db.users, data.assigneeId)) {
      return Failure(500, Given(Generic));
    }
    var task := NewTask(data, session.value.userId, NextOrder(db.tasks, data.projectId, data.status), id, now);
    db.tasks := db.tasks + [task];
    resp := Success(201, task);
  }

  /** A created task is created by the caller and sorts after every other task of its column. */
  lemma NewTaskLast(tasks: seq<Task>, data: TaskData, userId: string, id: string, now: DateTime)
    ensures var t := NewTask(data, userId, NextOrder(tasks, data.projectId, data.status), id, now);
      && t.creatorId == userId && t.projectId == data.projectId && t.status == data.status
      && forall i :: 0 <= i < |tasks| && tasks[i].projectId == t.projectId && tasks[i].status == t.status ==>
           ByStatusThenOrder(tasks[i], t) && !ByStatusThenOrder(t, tasks[i])
  {
  }
}
