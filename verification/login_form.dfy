/**
 * `LoginForm` of `components/login-form.tsx`: `handleSubmit` marks the form
 * busy, logs in, writes the `user_role` cookie and routes by role, or shows
 * an error message picked through a fallback chain.
 */
module LoginForm {
  import opened Base
  import opened Roles
  import Middleware
  import JsString

  /** `err.response.data` of a rejected login: its `message` and `error` fields. */
  datatype ErrorData = ErrorData(message: Option<string>, error: Option<string>)

  /** A rejected login; `responseData` is absent when the error carried no response. */
  datatype LoginFailure = LoginFailure(responseData: Option<ErrorData>)

  const DefaultError: string := "Email atau password salah"
  const FallbackRoute: string := "/dashboard/dashboard"

  /** The role switch of `handleSubmit`. */
  function LandingRoute(role: string): (route: string)
    ensures ParseRole(role).Some? ==> route == DashboardPath(ParseRole(role).value)
    ensures ParseRole(role).Some? ==> route == "/dashboard/" + role
    ensures ParseRole(role).None? ==> route == FallbackRoute
  {
    match role
    case "admin" => "/dashboard/admin"
    case "nurse" => "/dashboard/nurse"
    case "cashier" => "/dashboard/cashier"
    case "doctor" => "/dashboard/doctor"
    case _ => FallbackRoute
  }

  /** `data?.message || data?.error || 'Email atau password salah'`: the first non-empty candidate. */
  function ErrorMessage(failure: LoginFailure): (m: string)
    ensures m != ""
    ensures failure.responseData.Some? && failure.responseData.value.message.Some?
            && failure.responseData.value.message.value != ""
            ==> m == failure.responseData.value.message.value
    ensures failure.responseData.Some? && failure.responseData.value.message.GetOr("") == ""
            && failure.responseData.value.error.Some? && failure.responseData.value.error.value != ""
            ==> m == failure.responseData.value.error.value
    ensures m != DefaultError ==>
              failure.responseData.Some?
              && (m == failure.responseData.value.message.GetOr("") || m == failure.responseData.value.error.GetOr(""))
  {
    match failure.responseData
    case None => DefaultError
    case Some(data) =>
      var message := data.message.GetOr("");
      if message != "" then message
      else
        var error := data.error.GetOr("");
        if error != "" then error else DefaultError
  }

  /** The component state that `handleSubmit` touches, with its browser effects recorded. */
  class LoginForm {
    var loading: bool
    var error: Option<string>
    /** The value of the `user_role` cookie as last written by this form. */
    var roleCookie: Option<string>
    /** The `router.push` calls made so far. */
    var navigations: seq<string>

    constructor ()
      ensures !loading && error.None? && roleCookie.None? && navigations == []
    {
      loading := false;
      error := None;
      roleCookie := None;
      navigations := [];
    }

    /** `handleSubmit` up to the awaited login call. */
    method BeginSubmit()
      modifies this
      ensures loading && error.None?
      ensures roleCookie == old(roleCookie) && navigations == old(navigations)
    {
      loading := true;
      error := None;
    }

    /** `handleSubmit` after the login call settled with the user's role or a failure. */
    method FinishSubmit(outcome: Result<string, LoginFailure>)
      modifies this
      ensures !loading
      ensures outcome.Success? ==> roleCookie == Some(outcome.value) && error == old(error)
                                   && navigations == old(navigations) + [LandingRoute(outcome.value)]
      ensures outcome.Failure? ==> roleCookie == old(roleCookie) && error == Some(ErrorMessage(outcome.error))
                                   && navigations == old(navigations)
    {
      match outcome {
        case Success(role) =>
          roleCookie := Some(role);
          navigations := navigations + [LandingRoute(role)];
        case Failure(f) =>
          error := Some(ErrorMessage(f));
      }
      loading := false;
    }

    /** The whole submit: the error is cleared first and `loading` is false afterwards whatever the outcome. */
    method HandleSubmit(outcome: Result<string, LoginFailure>)
      modifies this
      ensures !loading
      ensures outcome.Success? ==> error.None? && roleCookie == Some(outcome.value)
                                   && navigations == old(navigations) + [LandingRoute(outcome.value)]
      ensures outcome.Failure? ==> error == Some(ErrorMessage(outcome.error)) && roleCookie == old(roleCookie)
                                   && navigations == old(navigations)
    {
      BeginSubmit();
      FinishSubmit(outcome);
    }
  }

  /** After a login with a non-empty role, the landing route is let through by the middleware
      reading the cookie the form has just written. */
  lemma LandingPassesMiddleware(role: string)
    requires role != ""
    ensures Middleware.Decide(Some(role), LandingRoute(role)) == Middleware.Next
  {
    var route := LandingRoute(role);
    Middleware.LoginNotUnderDashboard();
    match ParseRole(role)
    case Some(r) =>
      assert JsString.StartsWith(route, route);
    case None =>
      assert route[..|Middleware.DashboardPrefix|] == Middleware.DashboardPrefix;
      assert !JsString.StartsWith(route, Middleware.ManagementPrefix) by {
        assert route[11] != Middleware.ManagementPrefix[11];
      }
  }

  /** A backend role of "" writes an empty cookie, which the middleware reads as logged out:
      the landing route is then sent back to the login page. */
  lemma EmptyRoleLandsOnLogin()
    ensures Middleware.Decide(Some(""), LandingRoute("")) == Middleware.Redirect(Middleware.LoginPath)
  {
    assert FallbackRoute[..|Middleware.DashboardPrefix|] == Middleware.DashboardPrefix;
  }
}
