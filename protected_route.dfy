/** The route guard of src/components/ProtectedRoute.js: the same
    `token`/`userRole` rule as the admin guard, written a second time. */
module ProtectedRoute {
  import opened Wrappers
  import opened Js
  import opened BrowserStorage
  import opened Session
  import opened Navigation
  import AdminProtectedRoute

  function Decide(m: Store): (d: Decision)
    ensures !Authenticated(m) ==> d == Redirect(LoginPath, true)
    ensures Authenticated(m) && !HasAdminRole(m) ==> d == DenyThenRedirect(AdminProtectedRoute.AccessDeniedAlert, LoginPath, true)
    ensures Authenticated(m) && HasAdminRole(m) ==> d == RenderChildren
  {
    var token := Lookup(m, TokenKey);
    var userRole := Lookup(m, RoleKey);
    if !Truthy(token) then
      Redirect(LoginPath, true)
    else if userRole != Some(AdminRole) then
      DenyThenRedirect(AdminProtectedRoute.AccessDeniedAlert, LoginPath, true)
    else
      RenderChildren
  }

  /** For every storage state the two guards decide alike. */
  lemma AgreesWithAdminGuard(m: Store)
    ensures Decide(m) == AdminProtectedRoute.Decide(m)
  {
  }
}
