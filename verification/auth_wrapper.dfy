/**
 * `AuthWrapper` of `lib/authWrapper.tsx`: from the state of the `me` query and
 * the allowed roles it renders a spinner, nothing, or the protected children,
 * and may ask the router to replace the location.
 */
module AuthWrapper {
  import opened Base
  import opened Roles
  import Middleware
  import JsString

  /** The `me` payload; `role` is whatever string the backend sent. */
  datatype MeData = MeData(role: string)

  /** `useQuery` state: still loading, failed, or settled with possibly empty data. */
  datatype MeQuery = Loading | Errored | Settled(data: Option<MeData>)

  datatype View = Spinner | Nothing | Children

  /** What one render shows and the `router.replace` target it issues, if any. */
  datatype Outcome = Outcome(view: View, replaceWith: Option<string>)

  const LoginPath: string := "/auth/login"

  /** The render function of `AuthWrapper`. */
  function Gate(allowedRoles: seq<UserRole>, query: MeQuery): Outcome {
    match query
    case Loading => Outcome(Spinner, None)
    case Errored => Outcome(Nothing, Some(LoginPath))
    case Settled(None) => Outcome(Nothing, Some(LoginPath))
    case Settled(Some(me)) =>
      if Includes(allowedRoles, me.role) then Outcome(Children, None)
      else
        match ParseRole(me.role)
        case Some(r) => Outcome(Nothing, Some(DashboardPath(r)))
        case None => Outcome(Nothing, Some(LoginPath))
  }

  /** While the query loads only the spinner renders, with no redirect. */
  lemma LoadingShowsSpinnerOnly(allowedRoles: seq<UserRole>)
    ensures Gate(allowedRoles, Loading) == Outcome(Spinner, None)
  {
  }

  /** A failed or empty result renders nothing and goes to the login page. */
  lemma FailureGoesToLogin(allowedRoles: seq<UserRole>, query: MeQuery)
    requires query == Errored || query == Settled(None)
    ensures Gate(allowedRoles, query) == Outcome(Nothing, Some(LoginPath))
  {
  }

  /** A known role that is not allowed goes to its own dashboard. */
  lemma MismatchGoesToOwnDashboard(allowedRoles: seq<UserRole>, r: UserRole)
    requires r !in allowedRoles
    ensures Gate(allowedRoles, Settled(Some(MeData(RoleName(r))))) == Outcome(Nothing, Some(DashboardPath(r)))
  {
    IncludesIffParsesToAllowed(allowedRoles, RoleName(r));
  }

  /** A role outside the role map goes to the login page. */
  lemma UnknownRoleGoesToLogin(allowedRoles: seq<UserRole>, role: string)
    requires ParseRole(role).None?
    ensures Gate(allowedRoles, Settled(Some(MeData(role)))) == Outcome(Nothing, Some(LoginPath))
  {
    IncludesIffParsesToAllowed(allowedRoles, role);
  }

  /** Children render iff the query succeeded with data whose role is allowed; they never come with a redirect. */
  lemma ChildrenIffAllowed(allowedRoles: seq<UserRole>, query: MeQuery)
    ensures Gate(allowedRoles, query).view == Children
        <==> query.Settled? && query.data.Some? && ParseRole(query.data.value.role).Some?
             && ParseRole(query.data.value.role).value in allowedRoles
    ensures Gate(allowedRoles, query).view == Children ==> Gate(allowedRoles, query).replaceWith == None
  {
    if query.Settled? && query.data.Some? {
      IncludesIffParsesToAllowed(allowedRoles, query.data.value.role);
    }
  }

  /** A dashboard redirect issued for a role is let through by the middleware when the cookie holds that role. */
  lemma DashboardRedirectPassesMiddleware(allowedRoles: seq<UserRole>, r: UserRole)
    requires r !in allowedRoles
    ensures Middleware.Decide(Some(RoleName(r)), Gate(allowedRoles, Settled(Some(MeData(RoleName(r))))).replaceWith.value)
            == Middleware.Next
  {
    MismatchGoesToOwnDashboard(allowedRoles, r);
    Middleware.LoginNotUnderDashboard();
    assert Middleware.CurrentRolePath(RoleName(r)) == DashboardPath(r);
    assert JsString.StartsWith(DashboardPath(r), DashboardPath(r));
  }
}
