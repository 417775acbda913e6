/**
 * Offset pagination as the two paginated listings do it: `page` and `limit` read from the
 * query string with `parseInt`, `skip = (page - 1) * limit`, `take = limit`, and
 * `totalPages = Math.ceil(total / limit)` reported beside the rows.
 */
module Pagination {
  import opened Common
  import opened Text

  /** The longest run of decimal digits that starts the string (possibly empty). */
  function LeadingDigits(s: string): (r: string)
    ensures AllDigits(r) && |r| <= |s| && r == s[..|r|]
    ensures |r| < |s| ==> !IsDigit(s[|r|])
  {
    if s == [] || !IsDigit(s[0]) then [] else [s[0]] + LeadingDigits(s[1..])
  }

  /** Digits followed by nothing or by a non-digit are exactly the leading digits. */
  lemma {:induction false} LeadingDigitsOf(d: string, rest: string)
    requires AllDigits(d)
    requires rest == [] || !IsDigit(rest[0])
    ensures LeadingDigits(d + rest) == d
    decreases |d|
  {
    if d != [] {
      assert (d + rest)[1..] == d[1..] + rest;
      LeadingDigitsOf(d[1..], rest);
      assert d == [d[0]] + d[1..];
    }
  }

  /** The number of characters of the sign `parseInt` accepts in front of the digits. */
  function SignLength(s: string): (k: nat)
    ensures k <= 1 && k <= |s|
  {
    if s != [] && (s[0] == '-' || s[0] == '+') then 1 else 0
  }

  /**
   * `parseInt(s)` in base ten: an optional sign, then the longest run of digits; NaN (None)
   * when no digit follows the sign. Whatever follows the digits is ignored.
   */
  function ParseInt(s: string): (r: Option<int>)
    ensures r.None? <==> LeadingDigits(s[SignLength(s)..]) == []
    ensures r.Some? && SignLength(s) == 0 ==> r.value >= 0
    ensures r.Some? && s[0] == '+' ==> r.value >= 0
    ensures r.Some? && s[0] == '-' ==> r.value <= 0
  {
    var k := SignLength(s);
    var digits := LeadingDigits(s[k..]);
    if digits == [] then None
    else if k == 1 && s[0] == '-' then Some(-(DigitsValue(digits) as int))
    else Some(DigitsValue(digits))
  }

  /**
   * `parseInt` reads back what `String` writes, also when the number is followed by text
   * that does not start with a digit (`"2abc"` is page 2).
   */
  lemma ParseIntRoundTrip(n: int, rest: string)
    requires rest == [] || !IsDigit(rest[0])
    ensures ParseInt(IntToString(n) + rest) == Some(n)
  {
    var m: nat := if n < 0 then -n else n;
    var d := NatToDigits(m);
    DigitsRoundTrip(m);
    if n < 0 {
      ParseNegativeDigits(d, rest);
      assert IntToString(n) + rest == "-" + d + rest;
    } else {
      ParseDigits(d, rest);
    }
  }

  lemma ParseDigits(d: string, rest: string)
    requires AllDigits(d) && d != []
    requires rest == [] || !IsDigit(rest[0])
    ensures ParseInt(d + rest) == Some(DigitsValue(d))
  {
    assert IsDigit((d + rest)[0]);
    assert (d + rest)[0..] == d + rest;
    LeadingDigitsOf(d, rest);
  }

  lemma ParseNegativeDigits(d: string, rest: string)
    requires AllDigits(d) && d != []
    requires rest == [] || !IsDigit(rest[0])
    ensures ParseInt("-" + d + rest) == Some(-(DigitsValue(d) as int))
  {
    var s := "-" + d + rest;
    assert s[1..] == d + rest;
    LeadingDigitsOf(d, rest);
  }

  /** `parseInt(searchParams.get(name) || fallback)`: a missing or empty parameter reads as the fallback. */
  function IntParam(param: Option<string>, fallback: nat): (r: Option<int>)
    ensures !Truthy(param) ==> r == Some(fallback)
    ensures Truthy(param) ==> r == ParseInt(param.value)
  {
    var text := if Truthy(param) then param.value else NatToDigits(fallback);
    ParseIntRoundTrip(fallback, "");
    assert IntToString(fallback) + "" == NatToDigits(fallback);
    ParseInt(text)
  }

  /** The `skip` and `take` a query hands to the database. */
  datatype Window = Window(skip: nat, take: nat)

  /**
   * `skip: (page - 1) * limit, take: limit`. The database refuses a NaN and a negative
   * `skip`, so those have no window; a negative `take` has none in this model either.
   */
  function PageWindow(page: Option<int>, limit: Option<int>): (r: Option<Window>)
    ensures r.Some? <==> page.Some? && limit.Some? && limit.value >= 0 && (page.value - 1) * limit.value >= 0
    ensures r.Some? ==> r.value.skip == (page.value - 1) * limit.value && r.value.take == limit.value
  {
    if page.None? || limit.None? || limit.value < 0 || (page.value - 1) * limit.value < 0 then None
    else Some(Window((page.value - 1) * limit.value, limit.value))
  }

  function Min(a: int, b: int): int {
    if a <= b then a else b
  }

  /** The rows a query with this window returns: at most `take` of them, starting after `skip`. */
  function Slice<T>(rows: seq<T>, w: Window): (r: seq<T>)
    ensures |r| == Min(w.take, |rows| - Min(w.skip, |rows|))
    ensures forall i :: 0 <= i < |r| ==> r[i] == rows[w.skip + i]
  {
    rows[Min(w.skip, |rows|)..Min(w.skip + w.take, |rows|)]
  }

  /**
   * `Math.ceil(total / limit)`: the fewest pages of `limit` rows that hold `total` rows.
   * With a limit of 0 the quotient is Infinity or NaN, which JSON writes as null (None).
   */
  function TotalPages(total: nat, limit: nat): (r: Option<nat>)
    ensures r.None? <==> limit == 0
    ensures r.Some? ==> total <= r.value * limit
    ensures r.Some? && r.value > 0 ==> (r.value - 1) * limit < total
  {
    if limit == 0 then None
    else
      var q := (total + limit - 1) / limit;
      assert (total + limit - 1) == q * limit + (total + limit - 1) % limit;
      assert q * limit - limit == (q - 1) * limit;
      Some(q)
  }

  /** The `pagination` object of a listing. */
  datatype PageInfo = PageInfo(total: nat, page: int, limit: int, totalPages: Option<nat>)

  /** One page of a listing together with its `pagination` object. */
  datatype Paged<T> = Paged(rows: seq<T>, pagination: PageInfo)

  /**
   * The page that `page` and `limit` select from the ordered matching rows, with `total`
   * the number of all matching rows (the separate `count` query); None when the database
   * would refuse the window.
   */
  function Paginate<T>(ordered: seq<T>, page: Option<int>, limit: Option<int>): (r: Option<Paged<T>>)
    ensures r.None? <==> PageWindow(page, limit).None?
    ensures r.Some? ==>
      && r.value.rows == Slice(ordered, PageWindow(page, limit).value)
      && r.value.pagination == PageInfo(|ordered|, page.value, limit.value, TotalPages(|ordered|, limit.value))
  {
    var w := PageWindow(page, limit);
    if w.None? then None
    else Some(Paged(Slice(ordered, w.value), PageInfo(|ordered|, page.value, limit.value, TotalPages(|ordered|, limit.value))))
  }

  /**
   * Every row is on exactly the page its position says: row `i` is entry `i % limit` of
   * page `i / limit + 1`, and that page is within `totalPages`.
   */
  lemma RowOnItsPage<T>(rows: seq<T>, limit: nat, i: nat)
    requires limit > 0 && i < |rows|
    ensures var p := i / limit + 1;
      var w := PageWindow(Some(p), Some(limit));
      && w.Some?
      && Slice(rows, w.value)[i % limit] == rows[i]
      && p <= TotalPages(|rows|, limit).value
  {
    var q := i / limit;
    var k := i % limit;
    assert i == q * limit + k;
    assert (q + 1 - 1) * limit == q * limit;
    var w := Window(q * limit, limit);
    assert PageWindow(Some(q + 1), Some(limit)) == Some(w);
    assert Min(w.skip, |rows|) == q * limit;
    assert Slice(rows, w)[k] == rows[q * limit + k];
    var n := TotalPages(|rows|, limit).value;
    if n <= q {
      MulMono(n, q, limit);
    }
  }

  lemma MulMono(a: nat, b: nat, c: nat)
    requires a <= b
    ensures a * c <= b * c
  {
  }

  /** Pages 1 to `n` of a listing, one after the other. */
  function Pages<T>(rows: seq<T>, limit: nat, n: nat): seq<T> {
    if n == 0 then [] else Pages(rows, limit, n - 1) + Slice(rows, Window((n - 1) * limit, limit))
  }

  lemma PrefixConcat<T>(rows: seq<T>, lo: nat, hi: nat)
    requires lo <= hi <= |rows|
    ensures rows[..lo] + rows[lo..hi] == rows[..hi]
  {
  }

  /** The first `n` pages are the first `n * limit` rows, in order. */
  lemma {:induction false} PagesArePrefix<T>(rows: seq<T>, limit: nat, n: nat)
    ensures Pages(rows, limit, n) == rows[..Min(n * limit, |rows|)]
  {
    if n > 0 {
      PagesArePrefix(rows, limit, n - 1);
      var a := (n - 1) * limit;
      var b := n * limit;
      assert b == a + limit;
      assert Slice(rows, Window(a, limit)) == rows[Min(a, |rows|)..Min(b, |rows|)];
      PrefixConcat(rows, Min(a, |rows|), Min(b, |rows|));
    }
  }

  /** Pages 1 to `totalPages` hold every row of the listing exactly once, in order. */
  lemma PagesCoverRows<T>(rows: seq<T>, limit: nat)
    requires limit > 0
    ensures Pages(rows, limit, TotalPages(|rows|, limit).value) == rows
  {
    var n := TotalPages(|rows|, limit).value;
    PagesArePrefix(rows, limit, n);
    assert Min(n * limit, |rows|) == |rows|;
    assert rows[..|rows|] == rows;
  }
}
