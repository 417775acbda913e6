/** Small value types shared by every module of the model. */
module Common {

  /** A value that may be absent: JavaScript's `undefined`/`null`, or a missing query parameter. */
  datatype Option<+T> = None | Some(value: T) {
    function GetOr(default: T): T {
      match this
      case Some(v) => v
      case None => default
    }
  }

  /** The outcome of a schema check: the parsed data, or the message of the first failing field. */
  datatype Result<+T> = Ok(value: T) | Fail(message: string)

  /**
   * JavaScript truthiness of an optional string: `null`, `undefined` and the empty string
   * are all falsy, so `if (s)` takes the branch only for a present, non-empty string.
   */
  predicate Truthy(s: Option<string>) {
    s.Some? && s.value != ""
  }

  /**
   * `s.filter(p)`, and equally a database query's `where` clause: the elements that satisfy
   * `p`, in their original order.
   */
  function Filter<T>(s: seq<T>, p: T -> bool): (r: seq<T>)
    ensures |r| <= |s|
    ensures forall i :: 0 <= i < |r| ==> r[i] in s && p(r[i])
    ensures forall i :: 0 <= i < |s| && p(s[i]) ==> s[i] in r
  {
    if s == [] then []
    else
      assert s == s[..|s| - 1] + [s[|s| - 1]];
      Filter(s[..|s| - 1], p) + (if p(s[|s| - 1]) then [s[|s| - 1]] else [])
  }

  /** `s.some(p)`. */
  predicate Any<T>(s: seq<T>, p: T -> bool) {
    exists i :: 0 <= i < |s| && p(s[i])
  }

  lemma FilterSnoc<T>(s: seq<T>, x: T, p: T -> bool)
    ensures Filter(s + [x], p) == Filter(s, p) + (if p(x) then [x] else [])
  {
    assert (s + [x])[..|s|] == s;
  }

  /** Filters that agree on every element select the same elements. */
  lemma {:induction false} FilterExt<T>(s: seq<T>, p: T -> bool, q: T -> bool)
    requires forall i :: 0 <= i < |s| ==> p(s[i]) == q(s[i])
    ensures Filter(s, p) == Filter(s, q)
  {
    if s != [] {
      FilterExt(s[..|s| - 1], p, q);
    }
  }

  /** Filtering twice is filtering once by both conditions. */
  lemma {:induction false} FilterOfFilter<T>(s: seq<T>, p: T -> bool, q: T -> bool, pq: T -> bool)
    requires forall i :: 0 <= i < |s| ==> pq(s[i]) == (p(s[i]) && q(s[i]))
    ensures Filter(Filter(s, p), q) == Filter(s, pq)
  {
    if s != [] {
      var init, x := s[..|s| - 1], s[|s| - 1];
      assert forall i :: 0 <= i < |init| ==> init[i] == s[i];
      FilterOfFilter(init, p, q, pq);
      var fi := Filter(init, p);
      assert Filter(s, p) == fi + (if p(x) then [x] else []);
      assert Filter(s, pq) == Filter(init, pq) + (if pq(x) then [x] else []);
      if p(x) {
        FilterSnoc(fi, x, q);
      } else {
        assert fi + [] == fi;
      }
    }
  }

  /** A filter that holds of no element selects nothing. */
  lemma {:induction false} FilterNone<T>(s: seq<T>, p: T -> bool)
    requires forall i :: 0 <= i < |s| ==> !p(s[i])
    ensures Filter(s, p) == []
  {
    if s != [] {
      FilterNone(s[..|s| - 1], p);
    }
  }

  /** No element occurs twice. */
  predicate Distinct<T(==)>(s: seq<T>) {
    forall i, j :: 0 <= i < j < |s| ==> s[i] != s[j]
  }

  lemma {:induction false} FilterDistinct<T>(s: seq<T>, p: T -> bool)
    requires Distinct(s)
    ensures Distinct(Filter(s, p))
  {
    if s != [] {
      var init, x := s[..|s| - 1], s[|s| - 1];
      FilterDistinct(init, p);
      var fi := Filter(init, p);
      if p(x) {
        forall i | 0 <= i < |fi| ensures fi[i] != x {
          var m :| 0 <= m < |init| && init[m] == fi[i];
          assert s[m] == fi[i];
        }
      } else {
        assert fi + [] == fi;
      }
    }
  }

  /** `Filter` keeps the order of `s`: of two kept elements, the earlier comes from an earlier position. */
  lemma {:induction false} FilterKeepsOrder<T>(s: seq<T>, p: T -> bool, i: nat, j: nat)
    requires i < j < |Filter(s, p)|
    ensures exists a, b :: 0 <= a < b < |s| && s[a] == Filter(s, p)[i] && s[b] == Filter(s, p)[j]
  {
    var init, x := s[..|s| - 1], s[|s| - 1];
    var fi := Filter(init, p);
    assert Filter(s, p) == fi + (if p(x) then [x] else []);
    if j < |fi| {
      FilterKeepsOrder(init, p, i, j);
      var a, b :| 0 <= a < b < |init| && init[a] == fi[i] && init[b] == fi[j];
      assert s[a] == init[a] && s[b] == init[b];
    } else {
      var a :| 0 <= a < |init| && init[a] == fi[i];
      assert s[a] == Filter(s, p)[i] && s[|s| - 1] == Filter(s, p)[j];
    }
  }

  /**
   * Newest first: the kept elements of `s` listed from the last position back. Each kept
   * element appears as often as in `s` and nothing else does, and of two listed elements
   * the earlier comes from a later position.
   */
  lemma ReversedFilterNewestFirst<T>(s: seq<T>, p: T -> bool)
    ensures var r := Reversed(Filter(s, p));
      && multiset(r) == multiset(Filter(s, p))
      && (forall x :: x in r <==> x in s && p(x))
      && (forall i, j :: 0 <= i < j < |r| ==> exists a, b :: 0 <= b < a < |s| && s[a] == r[i] && s[b] == r[j])
  {
    ReversedFilterMembers(s, p);
    ReversedFilterOrder(s, p);
  }

  lemma ReversedFilterMembers<T>(s: seq<T>, p: T -> bool)
    ensures var r := Reversed(Filter(s, p));
      && multiset(r) == multiset(Filter(s, p))
      && (forall x :: x in r <==> x in s && p(x))
  {
    var f := Filter(s, p);
    var r := Reversed(f);
    ReversedPermutation(f);
    forall x ensures x in r <==> x in s && p(x) {
      assert x in r <==> x in multiset(f);
      if x in s && p(x) {
        var i :| 0 <= i < |s| && s[i] == x;
      }
    }
  }

  lemma ReversedFilterOrder<T>(s: seq<T>, p: T -> bool)
    ensures var r := Reversed(Filter(s, p));
      forall i, j :: 0 <= i < j < |r| ==> exists a, b :: 0 <= b < a < |s| && s[a] == r[i] && s[b] == r[j]
  {
    var f := Filter(s, p);
    var r := Reversed(f);
    forall i, j | 0 <= i < j < |r| ensures exists a, b :: 0 <= b < a < |s| && s[a] == r[i] && s[b] == r[j] {
      FilterKeepsOrder(s, p, |f| - 1 - j, |f| - 1 - i);
    }
  }

  /** In a sequence without repeats every element occurs once. */
  lemma {:induction false} DistinctOnceEach<T>(s: seq<T>, x: T)
    requires Distinct(s)
    ensures multiset(s)[x] <= 1
  {
    if s != [] {
      var init := s[..|s| - 1];
      assert s == init + [s[|s| - 1]];
      DistinctOnceEach(init, x);
      if s[|s| - 1] == x {
        assert x !in init;
      }
    }
  }

  /** A permutation of a sequence without repeats has none either. */
  lemma PermutationDistinct<T>(a: seq<T>, b: seq<T>)
    requires multiset(a) == multiset(b)
    requires Distinct(a)
    ensures Distinct(b)
  {
    forall i, j | 0 <= i < j < |b| ensures b[i] != b[j] {
      if b[i] == b[j] {
        assert b == b[..j] + [b[j]] + b[j + 1..];
        assert b[i] in multiset(b[..j]);
        assert multiset(b)[b[i]] >= 2;
        DistinctOnceEach(a, b[i]);
      }
    }
  }

  /** The positions `0 .. n-1` of an `n`-element array, in order. */
  function Indices(n: nat): (r: seq<nat>)
    ensures |r| == n
    ensures forall i :: 0 <= i < n ==> r[i] == i
    ensures Distinct(r)
  {
    seq(n, i requires 0 <= i => i)
  }

  /** `s.findIndex(p)`, as an option: the first position whose element satisfies `p`. */
  function IndexWhere<T>(s: seq<T>, p: T -> bool): (r: Option<nat>)
    ensures r.None? <==> forall j :: 0 <= j < |s| ==> !p(s[j])
    ensures r.Some? ==> r.value < |s| && p(s[r.value]) && forall j :: 0 <= j < r.value ==> !p(s[j])
  {
    if s == [] then None
    else if p(s[0]) then Some(0)
    else
      var rest := IndexWhere(s[1..], p);
      if rest.None? then None else Some(rest.value + 1)
  }

  /** Newest first: the `orderBy: { createdAt: "desc" }` order of rows stored oldest first. */
  function Reversed<T>(s: seq<T>): (r: seq<T>)
    ensures |r| == |s| && forall i :: 0 <= i < |s| ==> r[i] == s[|s| - 1 - i]
  {
    seq(|s|, i requires 0 <= i < |s| => s[|s| - 1 - i])
  }

  /** Reversing keeps every element as often as it occurs. */
  lemma {:induction false} ReversedPermutation<T>(s: seq<T>)
    ensures multiset(Reversed(s)) == multiset(s)
  {
    if s != [] {
      ReversedPermutation(s[1..]);
      assert Reversed(s) == Reversed(s[1..]) + [s[0]];
      assert s == [s[0]] + s[1..];
    }
  }

  /** `take: n` of a query, or `slice(0, n)` of an array: the first `n` elements, or all of them when there are fewer. */
  function TakeAtMost<T>(s: seq<T>, n: nat): (r: seq<T>)
    ensures |r| == if |s| < n then |s| else n
    ensures r == s[..|r|]
  {
    if |s| <= n then s else s[..n]
  }
}
