/**
 * The edge request gate: a decision from the request path and the `token`
 * cookie to "pass through", "redirect to the dashboard" or "redirect to
 * sign-in with a callback", plus the path matcher that decides which
 * requests reach the gate at all.
 */
module Middleware {
  import opened Wrappers
  import opened Http

  const SignInPath: string := "/signin"
  const DashboardPath: string := "/user/dashboard"

  /** `NextResponse.next()`, or a redirect carrying an optional `callbackUrl` query parameter. */
  datatype Decision = Next | Redirect(location: string, callbackUrl: Option<string>)

  /** The `token` cookie as `if (token)` reads it: only its presence, never its value. */
  predicate HasSession(token: Option<string>) {
    Truthy(token)
  }

  /** A plain string-prefix test, so `/users` and `/adminx` are protected too. */
  predicate IsProtected(pathname: string) {
    StartsWith(pathname, "/user") || StartsWith(pathname, "/admin")
  }

  /** The two sign-in entry pages. */
  predicate IsAuthEntry(pathname: string) {
    pathname == "/signin" || pathname == "/auth/signin"
  }

  /** The gate itself. */
  function Gate(pathname: string, token: Option<string>): (d: Decision)
    ensures d.Redirect? ==> HasSession(token) == (d.location == DashboardPath)
    ensures d.Redirect? && d.location == DashboardPath ==> d.callbackUrl == None && IsAuthEntry(pathname)
    ensures d.Redirect? && d.location != DashboardPath ==>
              d.location == SignInPath && d.callbackUrl == Some(pathname) && IsProtected(pathname)
  {
    if IsAuthEntry(pathname) && HasSession(token) then
      Redirect(DashboardPath, None)
    else if IsProtected(pathname) && !HasSession(token) then
      Redirect(SignInPath, Some(pathname))
    else
      // the `/admin` branch of the source is empty: nothing beyond the token test
      Next
  }

  /** A signed-in visitor of a sign-in page is sent to the dashboard. */
  lemma SignedInEntryGoesToDashboard(pathname: string, token: Option<string>)
    requires IsAuthEntry(pathname) && HasSession(token)
    ensures Gate(pathname, token) == Redirect(DashboardPath, None)
  {
  }

  /** An anonymous visitor of a protected path is sent to sign-in, remembering where they were going. */
  lemma AnonymousProtectedGoesToSignIn(pathname: string, token: Option<string>)
    requires IsProtected(pathname) && !HasSession(token)
    ensures Gate(pathname, token) == Redirect(SignInPath, Some(pathname))
  {
  }

  /** Every other combination passes through unchanged, and only those do. */
  lemma PassThroughExactly(pathname: string, token: Option<string>)
    ensures Gate(pathname, token) == Next <==>
              !(IsAuthEntry(pathname) && HasSession(token)) && !(IsProtected(pathname) && !HasSession(token))
  {
  }

  /** The decision depends on whether the token is present, never on its value. */
  lemma PresenceOnly(pathname: string, t1: Option<string>, t2: Option<string>)
    requires HasSession(t1) == HasSession(t2)
    ensures Gate(pathname, t1) == Gate(pathname, t2)
  {
  }

  /** `/admin` paths are guarded by the customer `token`, not by `admin_token`, and by nothing more. */
  lemma AdminNeedsOnlyCustomerToken(pathname: string, token: Option<string>)
    requires StartsWith(pathname, "/admin")
    ensures Gate(pathname, token) == if HasSession(token) then Next else Redirect(SignInPath, Some(pathname))
  {
    assert pathname[..6] == "/admin";
    assert pathname[2] == 'd';
    assert "/signin"[2] == 'i' && "/auth/signin"[2] == 'u';
    assert !IsAuthEntry(pathname);
  }

  /** The prefix test protects more than the two areas: `/users` and `/adminx` are guarded as well. */
  lemma PrefixNotSegment()
    ensures Gate("/users", None) == Redirect(SignInPath, Some("/users"))
    ensures Gate("/adminx", None) == Redirect(SignInPath, Some("/adminx"))
  {
  }

  // ---------------------------------------------------------------------------
  // The matcher: which requests the gate runs on.

  /** A `'/<area>/:path*'` pattern matches the bare area and anything below it. */
  predicate UnderArea(pathname: string, area: string) {
    pathname == area || StartsWith(pathname, area + "/")
  }

  /** The characters a regular-expression `.` does not match: the line terminators. */
  predicate IsLineTerminator(c: char) {
    c == '\n' || c == '\r' || c as int == 0x2028 || c as int == 0x2029
  }

  /**
   * `favicon.ico` inside the negative lookahead is a regular expression, so its
   * `.` stands for any character but a line terminator.
   */
  predicate FaviconLike(rest: string) {
    |rest| >= 11 && rest[..7] == "favicon" && !IsLineTerminator(rest[7]) && rest[8..11] == "ico"
  }

  /** The remainder after the leading `/` starts with one of the excluded prefixes. */
  predicate Excluded(rest: string) {
    StartsWith(rest, "api") || StartsWith(rest, "_next/static") ||
    StartsWith(rest, "_next/image") || FaviconLike(rest)
  }

  /** The lookahead's `.` is a wildcard: `/favicon.ico` and `/faviconXico` are both left alone. */
  lemma FaviconDotIsWildcard(c: char)
    requires !IsLineTerminator(c)
    ensures Excluded("favicon" + [c] + "ico")
    ensures !Excluded("favicon\nico")
  {
    var s := "favicon" + [c] + "ico";
    assert s[..7] == "favicon" && s[7] == c && s[8..11] == "ico";
    var t := "favicon\nico";
    assert t[0] == 'f' && t[7] == '\n';
  }

  /**
   * `'/((?!api|_next/static|_next/image|favicon.ico).*)'`. Its `.*` would stop
   * at a line terminator, but a request's pathname is percent-encoded and
   * never contains one, so the remainder is not checked for them here.
   */
  predicate CatchAll(pathname: string) {
    |pathname| >= 1 && pathname[0] == '/' && !Excluded(pathname[1..])
  }

  /** The four entries of `config.matcher`, in order. */
  predicate Matches(pathname: string) {
    UnderArea(pathname, "/user") || UnderArea(pathname, "/admin") ||
    UnderArea(pathname, "/auth") || CatchAll(pathname)
  }

  /** What a request experiences: the gate when the matcher selects it, otherwise nothing. */
  function Intercept(pathname: string, token: Option<string>): (d: Decision)
    ensures !Matches(pathname) ==> d == Next
    ensures Matches(pathname) ==> d == Gate(pathname, token)
  {
    if Matches(pathname) then Gate(pathname, token) else Next
  }

  /** A path under an area starts with the area's own text. */
  lemma UnderAreaStartsWith(pathname: string, area: string)
    requires UnderArea(pathname, area)
    ensures StartsWith(pathname, area)
  {
    if pathname != area {
      assert pathname[..|area|] == pathname[..|area| + 1][..|area|];
    }
  }

  /** An area whose name starts with neither `_`, `f` nor `ap` lies inside the catch-all. */
  lemma UnderAreaCaught(pathname: string, area: string)
    requires UnderArea(pathname, area)
    requires |area| >= 3 && area[0] == '/' && area[1] != '_' && area[1] != 'f'
    requires area[1] != 'a' || area[2] != 'p'
    ensures CatchAll(pathname)
  {
    UnderAreaStartsWith(pathname, area);
    var rest := pathname[1..];
    assert pathname[1] == area[1] && pathname[2] == area[2];
    assert rest[0] == area[1] && rest[1] == area[2];
    assert !StartsWith(rest, "api") by { assert rest[0] != 'a' || rest[1] != 'p'; }
    assert !StartsWith(rest, "_next/static") && !StartsWith(rest, "_next/image") by { assert rest[0] != '_'; }
    assert !FaviconLike(rest) by { assert rest[0] != 'f'; }
  }

  /** The first three matcher entries add nothing: the catch-all already selects those paths. */
  lemma AreaPatternsSubsumed(pathname: string)
    ensures Matches(pathname) <==> CatchAll(pathname)
  {
    if UnderArea(pathname, "/user") {
      UnderAreaCaught(pathname, "/user");
    } else if UnderArea(pathname, "/admin") {
      UnderAreaCaught(pathname, "/admin");
    } else if UnderArea(pathname, "/auth") {
      UnderAreaCaught(pathname, "/auth");
    }
  }

  /** API routes, Next.js assets and the favicon never reach the gate, whatever the cookie says. */
  lemma {:induction false} ExcludedPathsPassThrough(rest: string, token: Option<string>)
    requires Excluded(rest)
    ensures Intercept("/" + rest, token) == Next
  {
    var p := "/" + rest;
    assert p[1..] == rest;
    AreaPatternsSubsumed(p);
  }
}
