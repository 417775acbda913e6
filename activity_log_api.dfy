/**
 * `GET /api/activity-log`: the activity log, newest first, optionally narrowed to one
 * entity type and one user, one page at a time.
 */
module ActivityLogApi {
  import opened Common
  import opened Domain
  import opened Validation
  import opened Http
  import opened Pagination

  /** The query string of the route. */
  datatype LogQuery = LogQuery(page: Option<string>, limit: Option<string>, entityType: Option<string>, userId: Option<string>)

  /** `DEFAULT_PAGE_SIZE`. */
  const DefaultPageSize: nat := 10

  /** The `where` clause: each filter applies only when its parameter is a non-empty string. */
  predicate LogMatches(q: LogQuery, log: ActivityLog) {
    && (Truthy(q.entityType) ==> log.entityType == q.entityType.value)
    && (Truthy(q.userId) ==> log.userId == q.userId.value)
  }

  /** The entries the `where` clause selects, in the order they were logged. */
  function MatchingLogs(logs: seq<ActivityLog>, q: LogQuery): seq<ActivityLog> {
    Filter(logs, (e: ActivityLog) => LogMatches(q, e))
  }

  /**
   * `orderBy: { createdAt: "desc" }`: every matching entry as often as the log holds it and
   * nothing else, each one logged after the entries listed behind it.
   */
  function LogListing(logs: seq<ActivityLog>, q: LogQuery): (r: seq<ActivityLog>)
    ensures multiset(r) == multiset(MatchingLogs(logs, q))
    ensures forall e :: e in r <==> e in logs && LogMatches(q, e)
    ensures forall i, j :: 0 <= i < j < |r| ==> exists a, b :: 0 <= b < a < |logs| && logs[a] == r[i] && logs[b] == r[j]
  {
    ReversedFilterNewestFirst(logs, (e: ActivityLog) => LogMatches(q, e));
    Reversed(MatchingLogs(logs, q))
  }

  /**
   * The route: 401 without a session (a session whose user has no id is enough here); 500
   * when the page or limit is not a number or the database refuses the window; otherwise
   * the requested page of the matching entries, newest first, with the count of all of them.
   */
  function ListActivity(logs: seq<ActivityLog>, session: Option<Session>, q: LogQuery): (r: Response<Paged<ActivityLog>>)
    ensures session.None? <==> r == Failure(401, Given(Unauthorized))
    ensures session.Some? ==>
      (r.Failure? <==> PageWindow(IntParam(q.page, 1), IntParam(q.limit, DefaultPageSize)).None?)
    ensures session.Some? && r.Failure? ==> r == Failure(500, Given(Generic))
    ensures r.Success? ==>
      && r.status == 200
      && Paginate(LogListing(logs, q), IntParam(q.page, 1), IntParam(q.limit, DefaultPageSize)) == Some(r.body)
  {
    if session.None? then Failure(401, Given(Unauthorized))
    else
      var paged := Paginate(LogListing(logs, q), IntParam(q.page, 1), IntParam(q.limit, DefaultPageSize));
      if paged.None? then Failure(500, Given(Generic)) else Success(200, paged.value)
  }

  /**
   * With no page and no limit the route answers the ten newest matching entries, and
   * `totalPages` is the number of ten-entry pages needed for all of them.
   */
  lemma DefaultFirstPage(logs: seq<ActivityLog>, session: Session, entityType: Option<string>, userId: Option<string>)
    ensures var q := LogQuery(None, None, entityType, userId);
      var r := ListActivity(logs, Some(session), q);
      var all := LogListing(logs, q);
      && r.Success?
      && r.body.rows == all[..Min(10, |all|)]
      && r.body.pagination == PageInfo(|all|, 1, 10, TotalPages(|all|, 10))
  {
    var q := LogQuery(None, None, entityType, userId);
    assert IntParam(q.page, 1) == Some(1);
    assert IntParam(q.limit, DefaultPageSize) == Some(10);
    assert PageWindow(Some(1), Some(10)) == Some(Window(0, 10));
  }
}
