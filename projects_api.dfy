/** The project routes: the listing restricted to the caller's projects, and creation with the creator as OWNER. */
module ProjectsApi {
  import opened Common
  import opened Calendar
  import opened Sorting
  import opened Domain
  import opened Store
  import opened Permissions
  import opened Validation
  import opened Http

  /** `orderBy: { updatedAt: "desc" }`: the most recently updated project first. */
  predicate LaterUpdatedFirst(a: Project, b: Project) {
    a.updatedAt.TimeValue() >= b.updatedAt.TimeValue()
  }

  lemma LaterUpdatedFirstTotal()
    ensures IsTotalPreorder(LaterUpdatedFirst)
  {
  }

  /** The `where: { members: { some: { userId } } }` clause: the projects with `userId` among their members. */
  function MemberProjects(projects: seq<Project>, userId: string): seq<Project> {
    Filter(projects, (p: Project) => IsMember(p.members, userId))
  }

  /**
   * `GET /api/projects`: 401 without a signed-in user; otherwise the projects that have the
   * caller among their members, each as often as the table holds it and nothing else, the
   * most recently updated first.
   */
  function ListProjects(projects: seq<Project>, session: Option<Session>): (r: Response<seq<Project>>)
    ensures !SignedIn(session) <==> r == Failure(401, Given(Unauthorized))
    ensures r.Success? ==>
      && r.status == 200
      && multiset(r.body) == multiset(MemberProjects(projects, session.value.userId))
      && SortedBy(r.body, LaterUpdatedFirst)
      && (forall p :: p in r.body <==> p in projects && IsMember(p.members, session.value.userId))
  {
    if !SignedIn(session) then Failure(401, Given(Unauthorized))
    else
      var picked := MemberProjects(projects, session.value.userId);
      assert forall p :: p in projects && IsMember(p.members, session.value.userId) ==> p in picked by {
        forall p | p in projects && IsMember(p.members, session.value.userId) ensures p in picked {
          var i :| 0 <= i < |projects| && projects[i] == p;
        }
      }
      var sorted := SortBy(picked, LaterUpdatedFirst);
      LaterUpdatedFirstTotal();
      SortBySorted(picked, LaterUpdatedFirst);
      assert forall p :: p in sorted <==> p in multiset(picked);
      Success(200, sorted)
  }

  /**
   * A project updated later than every other one the caller belongs to heads the caller's
   * listing.
   */
  lemma LatestUpdateListedFirst(projects: seq<Project>, session: Session, p: Project)
    requires SignedIn(Some(session)) && IsMember(p.members, session.userId)
    requires forall q :: q in projects && IsMember(q.members, session.userId) ==> q.updatedAt.TimeValue() < p.updatedAt.TimeValue()
    ensures var r := ListProjects(projects + [p], Some(session));
      r.Success? && |r.body| > 0 && r.body[0] == p
  {
    var r := ListProjects(projects + [p], Some(session));
    assert p in r.body;
    var j :| 0 <= j < |r.body| && r.body[j] == p;
    var first := r.body[0];
    assert LaterUpdatedFirst(first, r.body[j]);
    assert first in projects + [p] && IsMember(first.members, session.userId);
  }

  /** The row `prisma.project.create` stores: the validated fields, one member, the creator as OWNER, and `updatedAt` stamped with the time of creation. */
  function NewProject(data: ProjectData, creatorId: string, id: string, now: DateTime): (p: Project)
    ensures p.members == [ProjectMember(creatorId, OWNER)] && p.updatedAt == now
  {
    Project(id, data.name, data.description, data.status, data.color, data.budget, data.startDate, data.endDate,
            [ProjectMember(creatorId, OWNER)], now)
  }

  /**
   * The creator of a project may manage it, and a non-administrator who is not its creator
   * may neither manage nor access it.
   */
  lemma {:induction false} CreatorManagesNewProject(data: ProjectData, session: Session, other: Session, id: string, now: DateTime)
    ensures CanManageProject(session, NewProject(data, session.userId, id, now).members)
    ensures CanAccessProject(session, NewProject(data, session.userId, id, now).members)
    ensures !IsAdmin(other) && other.userId != session.userId ==>
      !CanAccessProject(other, NewProject(data, session.userId, id, now).members)
  {
    var ms := NewProject(data, session.userId, id, now).members;
    assert ms[0].userId == session.userId && ms[0].role == OWNER;
  }

  /**
   * `POST /api/projects`: 401 without a signed-in user and 400 for a body the schema refuses;
   * 500 when the database refuses a start or end date that does not read as a date and time
   * (`storable`). None of these creates anything. Otherwise one project is appended, whose
   * only member is the caller with the OWNER role, stamped with the time of creation, `now`.
   */
  method CreateProject(db: Db, session: Option<Session>, body: Json, id: string, now: DateTime,
                       storable: string -> bool) returns (resp: Response<Project>)
    modifies db`projects
    ensures !SignedIn(session) ==> resp == Failure(401, Given(Unauthorized)) && db.projects == old(db.projects)
    ensures SignedIn(session) && ParseProject(body).Reject? ==>
      resp == Failure(400, Given(InvalidData)) && db.projects == old(db.projects)
    ensures SignedIn(session) && ParseProject(body).Pass? ==>
      var data := ParseProject(body).value;
      && (!(DateStorable(data.startDate, storable) && DateStorable(data.endDate, storable)) ==>
            resp == Failure(500, Given(Generic)) && db.projects == old(db.projects))
      && (DateStorable(data.startDate, storable) && DateStorable(data.endDate, storable) ==>
            var project := NewProject(data, session.value.userId, id, now);
            db.projects == old(db.projects) + [project] && resp == Success(201, project))
  {
    if !SignedIn(session) {
      return Failure(401, Given(Unauthorized));
    }
    var parsed := ParseProject(body);
    if parsed.Reject? {
      return Failure(400, Given(InvalidData));
    }
    if !(DateStorable(parsed.value.startDate, storable) && DateStorable(parsed.value.endDate, storable)) {
      return Failure(500, Given(Generic));
    }
    var project := NewProject(parsed.value, session.value.userId, id, now);
    db.projects := db.projects + [project];
    resp := Success(201, project);
  }
}
