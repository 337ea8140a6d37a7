/**
 * The edge middleware of `middleware.ts`: from the `user_role` cookie and the
 * request path it decides whether the request passes through or is redirected.
 */
module Middleware {
  import opened Base
  import opened JsString
  import opened Roles

  /** `NextResponse.next()` or `NextResponse.redirect` to a new pathname (the query string is kept). */
  datatype Decision = Next | Redirect(pathname: string)

  const LoginPath: string := "/auth/login"
  const DashboardPrefix: string := "/dashboard"
  const ManagementPrefix: string := "/dashboard/management"

  /** `role` is truthy: the cookie is present and not empty. */
  predicate LoggedIn(cookie: Option<string>) {
    cookie.Some? && cookie.value != ""
  }

  /** `roleDashboard[role] ?? '/dashboard'` */
  function CurrentRolePath(role: string): (p: string)
    ensures StartsWith(p, DashboardPrefix) && p != LoginPath
    ensures ParseRole(role).None? ==> p == DashboardPrefix
    ensures ParseRole(role).Some? ==> p == "/dashboard/" + role
  {
    match ParseRole(role)
    case Some(r) => DashboardPath(r)
    case None => DashboardPrefix
  }

  /** The body of `middleware(request)`. */
  function Decide(cookie: Option<string>, pathname: string): Decision {
    if !LoggedIn(cookie) then
      if StartsWith(pathname, DashboardPrefix) then Redirect(LoginPath) else Next
    else
      var rolePath := CurrentRolePath(cookie.value);
      if pathname == LoginPath then Redirect(rolePath)
      else if StartsWith(pathname, DashboardPrefix) then
        if StartsWith(pathname, ManagementPrefix) then Next
        else if !StartsWith(pathname, rolePath) then Redirect(rolePath)
        else Next
      else Next
  }

  /** `config.matcher`: `/`, `/auth/login` and `/dashboard/:path*`. */
  predicate Matched(pathname: string) {
    pathname == "/" || pathname == LoginPath || pathname == DashboardPrefix
    || StartsWith(pathname, DashboardPrefix + "/")
  }

  /** What a request meets: the middleware runs only on matched paths. */
  function Route(cookie: Option<string>, pathname: string): (d: Decision)
    ensures !Matched(pathname) ==> d == Next
    ensures Matched(pathname) ==> d == Decide(cookie, pathname)
  {
    if Matched(pathname) then Decide(cookie, pathname) else Next
  }

  /** The login page is not under `/dashboard`. */
  lemma LoginNotUnderDashboard()
    ensures !StartsWith(LoginPath, DashboardPrefix)
  {
    assert LoginPath[1] != DashboardPrefix[1];
  }

  /** Without a role cookie, exactly the paths starting with `/dashboard` go to the login page. */
  lemma LoggedOutGate(cookie: Option<string>, pathname: string)
    requires !LoggedIn(cookie)
    ensures StartsWith(pathname, DashboardPrefix) ==> Decide(cookie, pathname) == Redirect(LoginPath)
    ensures !StartsWith(pathname, DashboardPrefix) ==> Decide(cookie, pathname) == Next
  {
  }

  /** A logged-in user asking for the login page is sent to the role's dashboard. */
  lemma LoginPageRedirectsToRolePath(role: string)
    requires role != ""
    ensures Decide(Some(role), LoginPath) == Redirect(CurrentRolePath(role))
    ensures ParseRole(role).Some? ==> Decide(Some(role), LoginPath) == Redirect(DashboardPath(ParseRole(role).value))
  {
  }

  /** A role outside the table falls back to `/dashboard` and is never redirected inside it. */
  lemma UnknownRoleNeverRedirectedInDashboard(role: string, pathname: string)
    requires role != "" && ParseRole(role).None?
    requires StartsWith(pathname, DashboardPrefix)
    ensures Decide(Some(role), pathname) == Next
  {
    LoginNotUnderDashboard();
  }

  /** Every path under `/dashboard/management` passes for every logged-in role. */
  lemma ManagementOpenToAllRoles(role: string, pathname: string)
    requires role != ""
    requires StartsWith(pathname, ManagementPrefix)
    ensures Decide(Some(role), pathname) == Next
  {
    assert StartsWith(pathname, DashboardPrefix) by {
      assert pathname[..|DashboardPrefix|] == ManagementPrefix[..|DashboardPrefix|];
    }
    LoginNotUnderDashboard();
  }

  /** Any other `/dashboard` path is redirected to the role path exactly when it does not start with it. */
  lemma DashboardPrefixEnforced(role: string, pathname: string)
    requires role != ""
    requires StartsWith(pathname, DashboardPrefix) && !StartsWith(pathname, ManagementPrefix)
    ensures Decide(Some(role), pathname) == Redirect(CurrentRolePath(role)) <==> !StartsWith(pathname, CurrentRolePath(role))
    ensures Decide(Some(role), pathname) == Next <==> StartsWith(pathname, CurrentRolePath(role))
  {
    LoginNotUnderDashboard();
  }

  /** The test is a raw string prefix: an admin passes on `/dashboard/administrator`. */
  lemma PrefixIsNotSegmentMatch()
    ensures Decide(Some("admin"), "/dashboard/administrator") == Next
  {
    assert "/dashboard/administrator"[..|"/dashboard/admin"|] == "/dashboard/admin";
  }

  /** A logged-in user's paths outside `/dashboard`, other than the login page, pass through. */
  lemma OutsideDashboardPasses(role: string, pathname: string)
    requires role != "" && pathname != LoginPath && !StartsWith(pathname, DashboardPrefix)
    ensures Decide(Some(role), pathname) == Next
  {
  }

  /** Redirects go only to the login page (logged out) or to the role path (logged in). */
  lemma RedirectTargets(cookie: Option<string>, pathname: string)
    requires Decide(cookie, pathname).Redirect?
    ensures !LoggedIn(cookie) ==> Decide(cookie, pathname).pathname == LoginPath
    ensures LoggedIn(cookie) ==> Decide(cookie, pathname).pathname == CurrentRolePath(cookie.value)
  {
  }

  /** No redirect loop: the target of a redirect passes through on the next request. */
  lemma {:induction false} NoRedirectLoop(cookie: Option<string>, pathname: string)
    requires Decide(cookie, pathname).Redirect?
    ensures Decide(cookie, Decide(cookie, pathname).pathname) == Next
  {
    if LoggedIn(cookie) {
      var rolePath := CurrentRolePath(cookie.value);
      assert Decide(cookie, pathname).pathname == rolePath;
      assert StartsWith(rolePath, rolePath);
    } else {
      LoginNotUnderDashboard();
    }
  }

  /** The matcher narrows the middleware: `/dashboardx` is not matched, so it passes even when logged out. */
  lemma MatcherNarrowsPrefix()
    ensures Decide(None, "/dashboardx") == Redirect(LoginPath)
    ensures Route(None, "/dashboardx") == Next
  {
    assert "/dashboardx"[..|DashboardPrefix|] == DashboardPrefix;
    assert "/dashboardx"[10] != (DashboardPrefix + "/")[10];
  }
}
