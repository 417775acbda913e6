/**
 * Navigation: which pages the middleware guards and where it sends a visitor without a
 * session token; the breadcrumb trail the header derives from the pathname; and the
 * sidebar's highlighting tests and avatar initials.
 */
module Navigation {
  import opened Common
  import opened Text

  // ---------------------------------------------------------------- middleware

  /** The pages that need a signed-in user. */
  const ProtectedRoutes: seq<string> := ["/dashboard", "/finans", "/projeler", "/gorevler", "/raporlama", "/takim", "/ayarlar"]

  /** The sign-in page. */
  const LoginPage := "/giris"

  /** The middleware's test: the pathname starts with one of the guarded prefixes. */
  predicate IsProtected(pathname: string) {
    exists i :: 0 <= i < |ProtectedRoutes| && StartsWith(pathname, ProtectedRoutes[i])
  }

  /** What the middleware does with a request. */
  datatype Decision = Next | Redirect(location: string, callbackUrl: string)

  /**
   * The middleware: a guarded pathname without a session token is sent to the sign-in page,
   * which is told where to come back to; every other request goes on unchanged.
   */
  function Middleware(pathname: string, hasToken: bool): (d: Decision)
    ensures d.Redirect? <==> IsProtected(pathname) && !hasToken
    ensures d.Redirect? ==> d.location == LoginPage && d.callbackUrl == pathname
  {
    if IsProtected(pathname) && !hasToken then Redirect(LoginPage, pathname) else Next
  }

  /** The `matcher` of the middleware's config: `"/x/:path*"` is `/x` itself or anything below it. */
  predicate Matched(pathname: string) {
    exists i :: 0 <= i < |ProtectedRoutes| &&
      (pathname == ProtectedRoutes[i] || StartsWith(pathname, ProtectedRoutes[i] + "/"))
  }

  /** A path below a prefix starts with the prefix. */
  lemma StartsWithBelow(s: string, p: string)
    requires StartsWith(s, p + "/")
    ensures StartsWith(s, p)
  {
    assert s[..|p|] == (p + "/")[..|p|];
  }

  /**
   * The request as deployed: the middleware runs only on the pathnames its matcher
   * selects. A visitor without a token is redirected exactly on those pathnames.
   */
  function Guard(pathname: string, hasToken: bool): (d: Decision)
    ensures d.Redirect? <==> Matched(pathname) && !hasToken
    ensures d.Redirect? ==> d == Redirect(LoginPage, pathname)
  {
    MatchedIsProtected(pathname);
    if Matched(pathname) then Middleware(pathname, hasToken) else Next
  }

  /** Every pathname the matcher selects passes the middleware's test. */
  lemma MatchedIsProtected(pathname: string)
    ensures Matched(pathname) ==> IsProtected(pathname)
  {
    if Matched(pathname) {
      var i :| 0 <= i < |ProtectedRoutes| &&
        (pathname == ProtectedRoutes[i] || StartsWith(pathname, ProtectedRoutes[i] + "/"));
      if pathname != ProtectedRoutes[i] {
        StartsWithBelow(pathname, ProtectedRoutes[i]);
      }
    }
  }

  /**
   * The middleware's own test is a bare prefix test, looser than its matcher:
   * "/dashboardx" passes the test, but the matcher never hands it to the middleware.
   */
  lemma PrefixTestLooserThanMatcher()
    ensures IsProtected("/dashboardx")
    ensures !Matched("/dashboardx")
  {
    assert StartsWith("/dashboardx", ProtectedRoutes[0]);
    var path := "/dashboardx";
    forall i | 0 <= i < |ProtectedRoutes|
      ensures path != ProtectedRoutes[i] && !StartsWith(path, ProtectedRoutes[i] + "/")
    {
      var below := ProtectedRoutes[i] + "/";
      if i == 0 {
        assert below[10] != path[10];
      } else {
        assert below[1] == ProtectedRoutes[i][1] != path[1];
      }
    }
  }

  /** The sign-in page is not guarded, so the redirect cannot loop. */
  lemma LoginPageOpen(hasToken: bool)
    ensures !IsProtected(LoginPage)
    ensures Middleware(LoginPage, hasToken) == Next && Guard(LoginPage, hasToken) == Next
  {
    forall i | 0 <= i < |ProtectedRoutes| ensures !StartsWith(LoginPage, ProtectedRoutes[i]) {
      assert ProtectedRoutes[i][1] != LoginPage[1] || ProtectedRoutes[i][2] != LoginPage[2];
    }
  }

  // ---------------------------------------------------------------- header breadcrumbs

  predicate NonEmpty(s: string) {
    s != ""
  }

  /** `pathname.split("/").filter(Boolean)`: the non-empty pieces between slashes. */
  function Segments(pathname: string): (r: seq<string>)
    ensures forall i :: 0 <= i < |r| ==> r[i] != "" && forall j :: 0 <= j < |r[i]| ==> r[i][j] != '/'
  {
    var parts := Split(pathname, '/');
    var r := Filter(parts, NonEmpty);
    assert forall i :: 0 <= i < |r| ==> exists k :: 0 <= k < |parts| && parts[k] == r[i];
    r
  }

  /** The header's labels; a segment without one is shown as it is. */
  const PathLabels: map<string, string> := map[
    "dashboard" := "Ana Sayfa",
    "finans" := "Finans Yönetimi",
    "gelir-gider" := "Gelir / Gider",
    "faturalar" := "Faturalar",
    "kategoriler" := "Kategoriler",
    "raporlar" := "Raporlar",
    "projeler" := "Projeler",
    "gorevler" := "Görevlerim",
    "raporlama" := "Raporlama",
    "sablonlar" := "Şablonlar",
    "aktivite-log" := "Aktivite Logu",
    "takim" := "Takım",
    "ayarlar" := "Ayarlar",
    "liste" := "Liste Görünümü"]

  /** `pathLabels[segment] || segment`. */
  function Label(segment: string): (r: string)
    ensures segment in PathLabels ==> r == PathLabels[segment]
    ensures segment !in PathLabels ==> r == segment
    ensures segment != "" ==> r != ""
  {
    if segment in PathLabels && PathLabels[segment] != "" then PathLabels[segment] else segment
  }

  /** One breadcrumb: its link, its label and whether it is the current page. */
  datatype Crumb = Crumb(href: string, text: string, isLast: bool)

  /** The link of the breadcrumb of segment `i`: a slash and the segments up to it, joined by slashes. */
  function CrumbHref(segments: seq<string>, i: nat): string
    requires i < |segments|
  {
    "/" + Join(segments[..i + 1], "/")
  }

  /** The header's trail: one breadcrumb per segment, in order; only the last is marked as the page itself. */
  function Breadcrumbs(pathname: string): (r: seq<Crumb>)
    ensures |r| == |Segments(pathname)|
    ensures forall i :: 0 <= i < |r| ==>
      && r[i].href == CrumbHref(Segments(pathname), i)
      && r[i].text == Label(Segments(pathname)[i])
      && (r[i].isLast <==> i == |r| - 1)
  {
    var segments := Segments(pathname);
    seq(|segments|, i requires 0 <= i < |segments| =>
      Crumb(CrumbHref(segments, i), Label(segments[i]), i == |segments| - 1))
  }

  /** `parts.join(sep)` with one more part at the end. */
  lemma {:induction false} JoinSnoc(parts: seq<string>, x: string, sep: string)
    requires parts != []
    ensures Join(parts + [x], sep) == Join(parts, sep) + sep + x
    decreases |parts|
  {
    if |parts| > 1 {
      assert (parts + [x])[1..] == parts[1..] + [x];
      JoinSnoc(parts[1..], x, sep);
    }
  }

  /** Each breadcrumb's link extends the one before it by a slash and the next segment. */
  lemma HrefExtendsPrevious(segments: seq<string>, i: nat)
    requires i + 1 < |segments|
    ensures CrumbHref(segments, i + 1) == CrumbHref(segments, i) + "/" + segments[i + 1]
  {
    assert segments[..i + 2] == segments[..i + 1] + [segments[i + 1]];
    JoinSnoc(segments[..i + 1], segments[i + 1], "/");
  }

  /** Splitting at a separator splits the two sides separately. */
  lemma {:induction false} SplitAtSeparator(a: string, b: string, sep: char)
    ensures Split(a + [sep] + b, sep) == Split(a, sep) + Split(b, sep)
    decreases |a|
  {
    if a == [] {
      assert [sep] + b == a + [sep] + b;
      assert ([sep] + b)[1..] == b;
    } else {
      assert (a + [sep] + b)[1..] == a[1..] + [sep] + b;
      SplitAtSeparator(a[1..], b, sep);
    }
  }

  /** A piece without the separator splits into itself. */
  lemma {:induction false} SplitWithoutSeparator(w: string, sep: char)
    requires forall j :: 0 <= j < |w| ==> w[j] != sep
    ensures Split(w, sep) == [w]
    decreases |w|
  {
    if w != [] {
      SplitWithoutSeparator(w[1..], sep);
      assert [w[0]] + w[1..] == w;
    }
  }

  /** Splitting what was joined gives back the pieces, when none of them holds the separator. */
  lemma {:induction false} SplitOfJoin(parts: seq<string>, sep: char)
    requires parts != []
    requires forall i, j :: 0 <= i < |parts| && 0 <= j < |parts[i]| ==> parts[i][j] != sep
    ensures Split(Join(parts, [sep]), sep) == parts
    decreases |parts|
  {
    if |parts| == 1 {
      SplitWithoutSeparator(parts[0], sep);
    } else {
      SplitOfJoin(parts[1..], sep);
      SplitAtSeparator(parts[0], Join(parts[1..], [sep]), sep);
      SplitWithoutSeparator(parts[0], sep);
    }
  }

  /** A filter keeps a front element that passes it. */
  lemma {:induction false} FilterCons<T>(x: T, s: seq<T>, p: T -> bool)
    ensures Filter([x] + s, p) == (if p(x) then [x] else []) + Filter(s, p)
    decreases |s|
  {
    if s != [] {
      var last := s[|s| - 1];
      assert ([x] + s)[..|s|] == [x] + s[..|s| - 1];
      FilterCons(x, s[..|s| - 1], p);
    }
  }

  /** A filter that every element passes keeps them all. */
  lemma {:induction false} FilterAll<T>(s: seq<T>, p: T -> bool)
    requires forall i :: 0 <= i < |s| ==> p(s[i])
    ensures Filter(s, p) == s
    decreases |s|
  {
    if s != [] {
      FilterAll(s[..|s| - 1], p);
    }
  }

  /**
   * A breadcrumb's link leads to the page whose segments are the segments up to that
   * breadcrumb, so the trail of the linked page is the start of this one.
   */
  lemma CrumbLinksBack(pathname: string, i: nat)
    requires i < |Segments(pathname)|
    ensures Segments(CrumbHref(Segments(pathname), i)) == Segments(pathname)[..i + 1]
  {
    var segments := Segments(pathname);
    var prefix := segments[..i + 1];
    assert forall k :: 0 <= k < |prefix| ==> prefix[k] == segments[k];
    var joined := Join(prefix, "/");
    SplitOfJoin(prefix, '/');
    assert Split(joined, '/') == prefix;
    SplitAtSeparator("", joined, '/');
    assert CrumbHref(segments, i) == "" + ['/'] + joined;
    assert Split(CrumbHref(segments, i), '/') == [""] + prefix;
    FilterCons("", prefix, NonEmpty);
    FilterAll(prefix, NonEmpty);
  }

  /** The root, and any path of slashes only, has no breadcrumbs. */
  lemma {:induction false} SlashesHaveNoCrumbs(pathname: string)
    requires forall j :: 0 <= j < |pathname| ==> pathname[j] == '/'
    ensures Segments(pathname) == [] && Breadcrumbs(pathname) == []
    decreases |pathname|
  {
    if pathname != [] {
      SlashesHaveNoCrumbs(pathname[1..]);
      FilterCons("", Split(pathname[1..], '/'), NonEmpty);
    }
  }

  /** A trailing slash adds no breadcrumb. */
  lemma TrailingSlashIgnored(pathname: string)
    ensures Segments(pathname + "/") == Segments(pathname)
  {
    SplitAtSeparator(pathname, "", '/');
    assert pathname + "/" == pathname + ['/'] + "";
    FilterSnoc(Split(pathname, '/'), "", NonEmpty);
  }

  // ---------------------------------------------------------------- sidebar

  /** `isActive(url)`: the page itself or a page below it, so "/finansX" does not light up "/finans". */
  predicate IsActive(pathname: string, url: string) {
    pathname == url || StartsWith(pathname, url + "/")
  }

  /** `isFinanceActive`, a bare prefix test. */
  predicate IsFinanceActive(pathname: string) {
    StartsWith(pathname, "/finans")
  }

  /** `isReportActive`, a bare prefix test. */
  predicate IsReportActive(pathname: string) {
    StartsWith(pathname, "/raporlama")
  }

  /** The links of the finance and the reporting groups. */
  const FinanceUrls: seq<string> := ["/finans", "/finans/gelir-gider", "/finans/faturalar", "/finans/kategoriler", "/finans/raporlar"]
  const ReportUrls: seq<string> := ["/raporlama", "/raporlama/sablonlar", "/raporlama/aktivite-log"]

  /** A prefix of a prefix is a prefix. */
  lemma StartsWithTrans(s: string, p: string, q: string)
    requires StartsWith(s, p) && StartsWith(p, q)
    ensures StartsWith(s, q)
  {
    assert s[..|q|] == s[..|p|][..|q|];
  }

  /** A highlighted link of a group always has its group open. */
  lemma ActiveLinkOpensGroup(pathname: string, i: nat)
    ensures i < |FinanceUrls| && IsActive(pathname, FinanceUrls[i]) ==> IsFinanceActive(pathname)
    ensures i < |ReportUrls| && IsActive(pathname, ReportUrls[i]) ==> IsReportActive(pathname)
  {
    if i < |FinanceUrls| && IsActive(pathname, FinanceUrls[i]) {
      var url := FinanceUrls[i];
      assert StartsWith(url, "/finans");
      if pathname != url {
        StartsWithBelow(pathname, url);
      }
      StartsWithTrans(pathname, url, "/finans");
    }
    if i < |ReportUrls| && IsActive(pathname, ReportUrls[i]) {
      var url := ReportUrls[i];
      assert StartsWith(url, "/raporlama");
      if pathname != url {
        StartsWithBelow(pathname, url);
      }
      StartsWithTrans(pathname, url, "/raporlama");
    }
  }

  /** The group test is looser than the link test: "/finansX" opens the group but lights no link. */
  lemma GroupLooserThanLinks()
    ensures IsFinanceActive("/finansX")
    ensures forall i :: 0 <= i < |FinanceUrls| ==> !IsActive("/finansX", FinanceUrls[i])
  {
    var path := "/finansX";
    assert path[..7] == "/finans";
    forall i | 0 <= i < |FinanceUrls| ensures !IsActive(path, FinanceUrls[i]) {
      var below := FinanceUrls[i] + "/";
      if i == 0 {
        assert below[7] != path[7];
      } else {
        assert |below| > |path|;
      }
    }
  }

  /** `n[0]` of each word, where the `undefined` of an empty word joins as nothing. */
  function FirstChars(words: seq<string>): (r: string)
    ensures |r| <= |words|
  {
    if words == [] then ""
    else (if words[0] == "" then "" else [words[0][0]]) + FirstChars(words[1..])
  }

  /**
   * The characters that start a word of `s`, a word being a run of characters other than
   * the space; `atStart` says whether the text before `s` ended a word.
   */
  function WordStarts(s: string, atStart: bool): (r: string)
    ensures forall i :: 0 <= i < |r| ==> r[i] != ' ' && r[i] in s
  {
    if s == [] then ""
    else if s[0] == ' ' then WordStarts(s[1..], true)
    else (if atStart then [s[0]] else "") + WordStarts(s[1..], false)
  }

  /** Taking the first character of each piece of `split(" ")` takes the first character of each word. */
  lemma {:induction false} FirstCharsAreWordStarts(s: string)
    ensures FirstChars(Split(s, ' ')) == WordStarts(s, true)
    ensures FirstChars(Split(s, ' ')[1..]) == WordStarts(s, false)
    decreases |s|
  {
    if s != [] {
      FirstCharsAreWordStarts(s[1..]);
      var rest := Split(s[1..], ' ');
      if s[0] == ' ' {
        assert Split(s, ' ') == [""] + rest;
        assert ([""] + rest)[1..] == rest;
      } else {
        var parts := Split(s, ' ');
        assert parts == [[s[0]] + rest[0]] + rest[1..];
        assert parts[1..] == rest[1..];
        assert FirstChars(rest) == (if rest[0] == "" then "" else [rest[0][0]]) + FirstChars(rest[1..]);
      }
    }
  }

  /**
   * `getInitials(name)`: the first character of each space-separated word, upper-cased,
   * at most two of them.
   */
  function Initials(name: string): (r: string)
    ensures |r| <= 2
    ensures r == Take(UpperCase(WordStarts(name, true)), 2)
  {
    FirstCharsAreWordStarts(name);
    Take(UpperCase(FirstChars(Split(name, ' '))), 2)
  }

  /** The sidebar's avatar: the user's initials, or "?" without a name or when they come out empty. */
  function SidebarInitials(name: Option<string>): (r: string)
    ensures 1 <= |r| <= 2
    ensures name.None? ==> r == "?"
    ensures name.Some? && WordStarts(name.value, true) != [] ==> r == Initials(name.value)
    ensures name.Some? && WordStarts(name.value, true) == [] ==> r == "?"
  {
    if name.None? then "?"
    else
      var s := Initials(name.value);
      if s == "" then "?" else s
  }

  /** Two words start at the first letter of each. */
  lemma WordStartsOfTwoWords(first: string, last: string)
    requires first != "" && last != ""
    requires forall j :: 0 <= j < |first| ==> first[j] != ' '
    requires forall j :: 0 <= j < |last| ==> last[j] != ' '
    ensures WordStarts(first + " " + last, true) == [first[0], last[0]]
  {
    var s := first + " " + last;
    assert s[0] == first[0];
    assert s[1..] == first[1..] + (" " + last);
    WordStartsInsideWord(first[1..], " " + last);
    assert (" " + last)[0] == ' ' && (" " + last)[1..] == last;
    assert WordStarts(" " + last, false) == WordStarts(last, true);
    WordStartsInsideWord(last[1..], "");
    assert last[1..] + "" == last[1..];
    assert WordStarts(last, true) == [last[0]] + WordStarts(last[1..], false);
  }

  /** Two words give the upper-cased first letters of both. */
  lemma InitialsOfTwoWords(first: string, last: string)
    requires first != "" && last != ""
    requires forall j :: 0 <= j < |first| ==> first[j] != ' '
    requires forall j :: 0 <= j < |last| ==> last[j] != ' '
    ensures Initials(first + " " + last) == [ToUpperAscii(first[0]), ToUpperAscii(last[0])]
  {
    WordStartsOfTwoWords(first, last);
  }

  /** Inside a word no new word starts until the next space. */
  lemma {:induction false} WordStartsInsideWord(w: string, rest: string)
    requires forall j :: 0 <= j < |w| ==> w[j] != ' '
    ensures WordStarts(w + rest, false) == WordStarts(rest, false)
    decreases |w|
  {
    if w == [] {
      assert w + rest == rest;
    } else {
      assert (w + rest)[0] == w[0];
      assert (w + rest)[1..] == w[1..] + rest;
      WordStartsInsideWord(w[1..], rest);
    }
  }
}
