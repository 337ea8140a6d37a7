/**
 * `withAuth` of `lib/withAuth.tsx`: the wrapped component fetches the current
 * user once, then keeps `isLoading` and `role` as component state.
 */
module WithAuth {
  import opened Base
  import opened Roles

  /** The answer of `fetch('/api/me')`: a response with its `ok` flag and the role in its body, an ok response
      whose body cannot be read as an object (`res.json()` rejects, or resolves to `null` so that reading
      `data.role` throws), or a network failure. */
  datatype MeResponse = Response(ok: bool, role: string) | UnreadableBody | NetworkFailure

  /** A `router.replace` call; `Undefined` is `router.replace(undefined)`. */
  datatype Target = Path(path: string) | Undefined

  datatype View = Spinner | Nothing | Component

  const DefaultRedirect: string := "/auth/login"

  /** `fetchUser()`: rejects unless the response is ok, otherwise resolves to the role. */
  function FetchUser(res: MeResponse): (r: Result<string, string>)
    ensures r.Failure? <==> !(res.Response? && res.ok)
    ensures r.Success? ==> r.value == res.role
  {
    match res
    case Response(ok, role) => if ok then Success(role) else Failure("Gagal mengambil user")
    case UnreadableBody => Failure("unreadable body")
    case NetworkFailure => Failure("network error")
  }

  /** `options.redirectTo || '/auth/login'` */
  function FailureTarget(redirectTo: Option<string>): (p: string)
    ensures redirectTo.Some? && redirectTo.value != "" ==> p == redirectTo.value
    ensures redirectTo.None? || redirectTo.value == "" ==> p == DefaultRedirect
  {
    if redirectTo.Some? && redirectTo.value != "" then redirectTo.value else DefaultRedirect
  }

  /** The `then`/`catch` of the effect: the role to store (if any) and the navigation issued (if any). */
  datatype Step = Step(role: Option<UserRole>, navigate: Option<Target>)

  function Settle(allowedRoles: seq<UserRole>, redirectTo: Option<string>, fetched: Result<string, string>): (s: Step)
    ensures s.role.Some? ==> s.role.value in allowedRoles && s.navigate.None?
    ensures s.role.None? ==> s.navigate.Some?
  {
    match fetched
    case Failure(_) => Step(None, Some(Path(FailureTarget(redirectTo))))
    case Success(role) =>
      if Includes(allowedRoles, role) then
        IncludesIffParsesToAllowed(allowedRoles, role);
        Step(ParseRole(role), None)
      else
        match ParseRole(role)
        case Some(r) => Step(None, Some(Path(DashboardPath(r))))
        case None => Step(None, Some(Undefined))
  }

  /** The component returned by `withAuth(Component, options)`. */
  class ProtectedComponent {
    const allowedRoles: seq<UserRole>
    const redirectTo: Option<string>
    var isLoading: bool
    var role: Option<UserRole>
    /** The `router.replace` calls made so far. */
    var navigations: seq<Target>

    /** `role` is only ever set to an allowed role. */
    ghost predicate Valid()
      reads this
    {
      role.Some? ==> role.value in allowedRoles
    }

    constructor (allowedRoles: seq<UserRole>, redirectTo: Option<string>)
      ensures this.allowedRoles == allowedRoles && this.redirectTo == redirectTo
      ensures isLoading && role.None? && navigations == []
      ensures Valid()
    {
      this.allowedRoles := allowedRoles;
      this.redirectTo := redirectTo;
      isLoading := true;
      role := None;
      navigations := [];
    }

    /** The effect's promise chain once `fetch` has answered. */
    method OnFetched(res: MeResponse)
      requires Valid()
      modifies this
      ensures Valid()
      ensures !isLoading
      ensures var s := Settle(allowedRoles, redirectTo, FetchUser(res));
              (s.role.Some? ==> role == s.role) && (s.role.None? ==> role == old(role))
      ensures var s := Settle(allowedRoles, redirectTo, FetchUser(res));
              navigations == old(navigations) + (if s.navigate.Some? then [s.navigate.value] else [])
    {
      var s := Settle(allowedRoles, redirectTo, FetchUser(res));
      if s.role.Some? {
        role := s.role;
      }
      if s.navigate.Some? {
        navigations := navigations + [s.navigate.value];
      }
      isLoading := false;
    }

    /** The render: spinner while loading, nothing without a role, the component otherwise. */
    function Render(): (v: View)
      reads this
      ensures v == Component <==> !isLoading && role.Some?
      ensures v == Spinner <==> isLoading
    {
      if isLoading then Spinner else if role.None? then Nothing else Component
    }
  }

  /** A failed fetch goes to `redirectTo`, or `/auth/login` when it is absent or empty, and sets no role. */
  lemma FailureRedirects(allowedRoles: seq<UserRole>, redirectTo: Option<string>, res: MeResponse)
    requires !(res.Response? && res.ok)
    ensures Settle(allowedRoles, redirectTo, FetchUser(res)) == Step(None, Some(Path(FailureTarget(redirectTo))))
  {
  }

  /** A known role outside `allowedRoles` goes to its own dashboard and leaves `role` unset;
      a role outside the role map makes `router.replace(undefined)`. */
  lemma MismatchRedirects(allowedRoles: seq<UserRole>, redirectTo: Option<string>, role: string)
    requires !Includes(allowedRoles, role)
    ensures ParseRole(role).Some? ==>
      Settle(allowedRoles, redirectTo, Success(role)) == Step(None, Some(Path(DashboardPath(ParseRole(role).value))))
    ensures ParseRole(role).None? ==> Settle(allowedRoles, redirectTo, Success(role)) == Step(None, Some(Undefined))
  {
  }

  /** An allowed role is stored and nothing navigates. */
  lemma AllowedRoleStored(allowedRoles: seq<UserRole>, redirectTo: Option<string>, r: UserRole)
    requires r in allowedRoles
    ensures Settle(allowedRoles, redirectTo, Success(RoleName(r))) == Step(Some(r), None)
  {
    IncludesIffParsesToAllowed(allowedRoles, RoleName(r));
  }

  /** The wrapped component renders only after loading, and then only for an allowed role. */
  lemma RendersOnlyAllowed(c: ProtectedComponent)
    requires c.Valid()
    ensures c.Render() == Component ==> !c.isLoading && c.role.Some? && c.role.value in c.allowedRoles
  {
  }
}
