/**
 * The route guard of the front end: given whether the visitor is logged in,
 * the role held in the auth store (absent when none is stored) and the roles
 * the route admits, it redirects to the login page, renders the protected
 * children, or renders the Access Denied panel.
 */
module ProtectedRoute {
  import opened Common

  datatype Decision = RedirectToLogin | Allow | Deny

  /** The guard's `allowedRoles` when the route names none. */
  const DefaultAllowedRoles: seq<string> := []

  /** `allowedRoles.includes(userRole)`; a missing role is in no list. */
  predicate Includes(allowedRoles: seq<string>, userRole: Option<string>) {
    userRole.Some? && userRole.value in allowedRoles
  }

  function Decide(isAuthenticated: bool, userRole: Option<string>, allowedRoles: seq<string>): (d: Decision)
    ensures !isAuthenticated <==> d == RedirectToLogin
    ensures d == Allow <==> isAuthenticated && (allowedRoles == [] || Includes(allowedRoles, userRole))
    ensures d == Deny <==> isAuthenticated && allowedRoles != [] && !Includes(allowedRoles, userRole)
  {
    if !isAuthenticated then RedirectToLogin
    else if |allowedRoles| == 0 then Allow
    else if !Includes(allowedRoles, userRole) then Deny
    else Allow
  }

  /** Without a role list every logged-in visitor is admitted, whatever role is stored. */
  lemma DefaultAdmitsAuthenticated(userRole: Option<string>)
    ensures Decide(true, userRole, DefaultAllowedRoles) == Allow
    ensures Decide(false, userRole, DefaultAllowedRoles) == RedirectToLogin
  {
  }

  /** A visitor who is not logged in is sent to the login page whatever the roles, never shown the denial panel. */
  lemma UnauthenticatedAlwaysRedirected(userRole: Option<string>, allowedRoles: seq<string>)
    ensures Decide(false, userRole, allowedRoles) == RedirectToLogin
    ensures Decide(false, userRole, allowedRoles) != Deny
  {
  }

  /** Widening a non-empty role list never turns an admission into a denial. */
  lemma WideningKeepsAllow(userRole: Option<string>, narrow: seq<string>, wide: seq<string>)
    requires narrow != [] && forall r :: r in narrow ==> r in wide
    ensures Decide(true, userRole, narrow) == Allow ==> Decide(true, userRole, wide) == Allow
    ensures Decide(true, userRole, wide) == Deny ==> Decide(true, userRole, narrow) == Deny
  {
  }
}
