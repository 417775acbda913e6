/**
 * The transaction routes: the caller's own transactions filtered by type, category and
 * date range, newest first and one page at a time; and creation of a transaction owned by
 * the caller.
 */
module TransactionsApi {
  import opened Common
  import opened Domain
  import Calendar
  import opened Sorting
  import opened Store
  import opened Permissions
  import opened Validation
  import opened Http
  import opened Pagination

  /** The query string of `GET /api/transactions`. */
  datatype TransactionQuery = TransactionQuery(
    txType: Option<string>,
    categoryId: Option<string>,
    startDate: Option<string>,
    endDate: Option<string>,
    page: Option<string>,
    limit: Option<string>)

  /** The transactions route pages 50 rows at a time unless told otherwise. */
  const TransactionPageSize: nat := 50

  const ListError := "İşlemler alınamadı"

  /** `new Date(param)` for a given date bound reads as a valid time value. */
  predicate BoundReadable(param: Option<string>, parseDate: string -> Option<int>) {
    Truthy(param) ==> parseDate(param.value).Some?
  }

  /** The time value of a given, readable bound; None when the bound is not given. */
  function Bound(param: Option<string>, parseDate: string -> Option<int>): (r: Option<int>)
    requires BoundReadable(param, parseDate)
    ensures r.Some? <==> Truthy(param)
  {
    if Truthy(param) then parseDate(param.value) else None
  }

  /**
   * The `where` clause: the caller's own rows; the type and category when given; the date
   * no earlier than `start` and no later than `end` when those are given (both inclusive).
   */
  predicate TransactionMatches(userId: string, q: TransactionQuery, start: Option<int>, end: Option<int>, t: Transaction) {
    && t.userId == userId
    && (Truthy(q.txType) ==> TransactionTypeName(t.txType) == q.txType.value)
    && (Truthy(q.categoryId) ==> t.categoryId == q.categoryId.value)
    && (start.Some? ==> start.value <= t.date.TimeValue())
    && (end.Some? ==> t.date.TimeValue() <= end.value)
  }

  /** `orderBy: { date: "desc" }`. */
  predicate LaterFirst(a: Transaction, b: Transaction) {
    a.date.TimeValue() >= b.date.TimeValue()
  }

  lemma LaterFirstTotal()
    ensures IsTotalPreorder(LaterFirst)
  {
  }

  /** The rows the `where` clause selects, in table order. */
  function Matching(txs: seq<Transaction>, userId: string, q: TransactionQuery,
                    start: Option<int>, end: Option<int>): seq<Transaction> {
    Filter(txs, (t: Transaction) => TransactionMatches(userId, q, start, end, t))
  }

  /** Every matching transaction, latest date first. */
  function TransactionListing(txs: seq<Transaction>, userId: string, q: TransactionQuery,
                              start: Option<int>, end: Option<int>): seq<Transaction> {
    SortBy(Matching(txs, userId, q, start, end), LaterFirst)
  }

  /**
   * The listing holds each matching transaction as often as the table does, and nothing
   * else, latest date first.
   */
  lemma TransactionListingSpec(txs: seq<Transaction>, userId: string, q: TransactionQuery, start: Option<int>, end: Option<int>)
    ensures var r := TransactionListing(txs, userId, q, start, end);
      && SortedBy(r, LaterFirst)
      && (forall t :: t in r <==> t in txs && TransactionMatches(userId, q, start, end, t))
      && (forall t :: t in r ==> t.userId == userId)
  {
    var matches := (t: Transaction) => TransactionMatches(userId, q, start, end, t);
    var picked := Matching(txs, userId, q, start, end);
    var r := SortBy(picked, LaterFirst);
    LaterFirstTotal();
    SortBySorted(picked, LaterFirst);
    forall t ensures t in r <==> t in txs && matches(t) {
      assert t in r <==> t in multiset(picked);
      if t in txs && matches(t) {
        var i :| 0 <= i < |txs| && txs[i] == t;
        assert t in picked;
      }
    }
  }

  /** The query runs: the type names a transaction type and both given date bounds are valid dates. */
  predicate QueryRuns(q: TransactionQuery, parseDate: string -> Option<int>) {
    && (Truthy(q.txType) ==> ParseTransactionType(q.txType.value).Some?)
    && BoundReadable(q.startDate, parseDate)
    && BoundReadable(q.endDate, parseDate)
  }

  /**
   * `GET /api/transactions`: 401 without a signed-in user. A type that names no
   * transaction type, an unreadable date bound, or a page and limit the database refuses
   * make the query fail with 500. Otherwise the requested page of the caller's matching
   * transactions, latest date first, with the count of all of them.
   */
  function ListTransactions(txs: seq<Transaction>, session: Option<Session>, q: TransactionQuery,
                            parseDate: string -> Option<int>): (r: Response<Paged<Transaction>>)
    ensures !SignedIn(session) <==> r == Failure(401, Given(UnauthorizedAccess))
    ensures SignedIn(session) && r.Failure? ==> r == Failure(500, Given(ListError))
    ensures SignedIn(session) ==>
      (r.Success? <==> QueryRuns(q, parseDate) && PageWindow(IntParam(q.page, 1), IntParam(q.limit, TransactionPageSize)).Some?)
    ensures r.Success? ==>
      var all := TransactionListing(txs, session.value.userId, q, Bound(q.startDate, parseDate), Bound(q.endDate, parseDate));
      && r.status == 200
      && Paginate(all, IntParam(q.page, 1), IntParam(q.limit, TransactionPageSize)) == Some(r.body)
  {
    if !SignedIn(session) then Failure(401, Given(UnauthorizedAccess))
    else if !QueryRuns(q, parseDate) then Failure(500, Given(ListError))
    else
      var all := TransactionListing(txs, session.value.userId, q, Bound(q.startDate, parseDate), Bound(q.endDate, parseDate));
      var paged := Paginate(all, IntParam(q.page, 1), IntParam(q.limit, TransactionPageSize));
      if paged.None? then Failure(500, Given(ListError)) else Success(200, paged.value)
  }

  /**
   * Whatever the query, a page holds only the caller's own transactions, at most `limit`
   * of them, and its `total` counts every match.
   */
  lemma ListingOnlyOwnRows(txs: seq<Transaction>, session: Option<Session>, q: TransactionQuery, parseDate: string -> Option<int>)
    requires ListTransactions(txs, session, q, parseDate).Success?
    ensures var r := ListTransactions(txs, session, q, parseDate);
      && (forall t :: t in r.body.rows ==> t in txs && t.userId == session.value.userId)
      && |r.body.rows| <= r.body.pagination.limit
      && r.body.pagination.total == |Matching(txs, session.value.userId, q, Bound(q.startDate, parseDate), Bound(q.endDate, parseDate))|
  {
    var r := ListTransactions(txs, session, q, parseDate);
    var userId := session.value.userId;
    var start, end := Bound(q.startDate, parseDate), Bound(q.endDate, parseDate);
    var all := TransactionListing(txs, userId, q, start, end);
    TransactionListingSpec(txs, userId, q, start, end);
    var paged := Paginate(all, IntParam(q.page, 1), IntParam(q.limit, TransactionPageSize));
    var w := PageWindow(IntParam(q.page, 1), IntParam(q.limit, TransactionPageSize)).value;
    assert r.body == paged.value;
    var rows := Slice(all, w);
    assert r.body.rows == rows;
    forall t | t in rows ensures t in txs && t.userId == userId {
      var i :| 0 <= i < |rows| && rows[i] == t;
      assert all[w.skip + i] in all;
    }
  }

  // ---------------------------------------------------------------- POST /api/transactions

  const CreateError := "İşlem oluşturulamadı"

  /**
   * `POST /api/transactions`: 401 without a signed-in user; 400 for a body the schema
   * refuses. Otherwise the database stores `{ ...data, userId }`; it fails with 500, and
   * stores nothing, when it cannot read the date string as a date or the category does
   * not exist. The created row is returned with 201.
   *
   * `toDate` is the database's reading of the date string, `toAmount` the amount column's
   * storage of the number and `category` the name of the category with a given id (the
   * `include: { category }` join), None for an unknown id. The database reads a date
   * string as a point in time, whose getters report in-range fields, so the stored dates
   * stay getter readings.
   */
  method CreateTransaction(db: Db, session: Option<Session>, body: Json, id: string,
                           toDate: string -> Option<Calendar.DateTime>, toAmount: real -> int,
                           category: string -> Option<string>)
    returns (resp: Response<Transaction>)
    requires forall s :: toDate(s).Some? ==> toDate(s).value.Valid()
    modifies db`transactions
    ensures GetterDates(old(db.transactions)) ==> GetterDates(db.transactions)
    ensures !SignedIn(session) ==> resp == Failure(401, Given(UnauthorizedAccess)) && db.transactions == old(db.transactions)
    ensures SignedIn(session) && ParseTransaction(body).Reject? ==>
      resp == Failure(400, Given(InvalidData)) && db.transactions == old(db.transactions)
    ensures SignedIn(session) && ParseTransaction(body).Pass? ==>
      var data := ParseTransaction(body).value;
      && (toDate(data.date).None? || category(data.categoryId).None? ==>
            resp == Failure(500, Given(CreateError)) && db.transactions == old(db.transactions))
      && (toDate(data.date).Some? && category(data.categoryId).Some? ==>
            var t := Transaction(id, data.txType, toAmount(data.amount), data.description, toDate(data.date).value,
                                 data.categoryId, category(data.categoryId).value, session.value.userId);
            db.transactions == old(db.transactions) + [t] && resp == Success(201, t))
  {
    if !SignedIn(session) {
      return Failure(401, Given(UnauthorizedAccess));
    }
    var parsed := ParseTransaction(body);
    if parsed.Reject? {
      return Failure(400, Given(InvalidData));
    }
    var data := parsed.value;
    var date := toDate(data.date);
    var name := category(data.categoryId);
    if date.None? || name.None? {
      return Failure(500, Given(CreateError));
    }
    var t := Transaction(id, data.txType, toAmount(data.amount), data.description, date.value,
                         data.categoryId, name.value, session.value.userId);
    db.transactions := db.transactions + [t];
    resp := Success(201, t);
  }
}
