/** The four staff roles and their dashboards, shared by the middleware and the client-side guards. */
module Roles {
  import opened Base

  datatype UserRole = Admin | Nurse | Cashier | Doctor

  /** The role string the backend and the `user_role` cookie carry. */
  function RoleName(r: UserRole): string {
    match r
    case Admin => "admin"
    case Nurse => "nurse"
    case Cashier => "cashier"
    case Doctor => "doctor"
  }

  /** Looks a role string up in the four-entry role table. */
  function ParseRole(s: string): (r: Option<UserRole>)
    ensures r.Some? ==> RoleName(r.value) == s
    ensures forall x: UserRole :: RoleName(x) == s ==> r == Some(x)
  {
    match s
    case "admin" => Some(Admin)
    case "nurse" => Some(Nurse)
    case "cashier" => Some(Cashier)
    case "doctor" => Some(Doctor)
    case _ => None
  }

  /** The role's own dashboard, `/dashboard/<role>`. */
  function DashboardPath(r: UserRole): (p: string)
    ensures p == "/dashboard/" + RoleName(r)
  {
    match r
    case Admin => "/dashboard/admin"
    case Nurse => "/dashboard/nurse"
    case Cashier => "/dashboard/cashier"
    case Doctor => "/dashboard/doctor"
  }

  /** `allowedRoles.includes(role)` for a role string: it names one of the allowed roles. */
  predicate Includes(allowed: seq<UserRole>, role: string)
  {
    exists i :: 0 <= i < |allowed| && RoleName(allowed[i]) == role
  }

  /** A role string is allowed exactly when it parses to a role in the list. */
  lemma IncludesIffParsesToAllowed(allowed: seq<UserRole>, role: string)
    ensures Includes(allowed, role) <==> (ParseRole(role).Some? && ParseRole(role).value in allowed)
  {
    if ParseRole(role).Some? && ParseRole(role).value in allowed {
      var i :| 0 <= i < |allowed| && allowed[i] == ParseRole(role).value;
      assert RoleName(allowed[i]) == role;
    }
  }
}
