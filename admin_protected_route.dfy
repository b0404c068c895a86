/** The admin route guard: reads `token` and `userRole` and decides. */
module AdminProtectedRoute {
  import opened Wrappers
  import opened Js
  import opened BrowserStorage
  import opened Session
  import opened Navigation

  const AccessDeniedAlert := "Access Denied: Only Administrators can view this page."

  /** The token check comes first, so a visitor without a token is never shown
      the access-denied alert; only an authenticated ADMIN reaches the children. */
  function Decide(m: Store): (d: Decision)
    ensures d == RenderChildren <==> Authenticated(m) && HasAdminRole(m)
    ensures !Authenticated(m) ==> d == Redirect(LoginPath, true)
    ensures Authenticated(m) && !HasAdminRole(m) ==> d == DenyThenRedirect(AccessDeniedAlert, LoginPath, true)
    ensures d.DenyThenRedirect? ==> Authenticated(m)
  {
    var token := Lookup(m, TokenKey);
    var userRole := Lookup(m, RoleKey);
    if !Truthy(token) then
      Redirect(LoginPath, true)
    else if userRole != Some(AdminRole) then
      DenyThenRedirect(AccessDeniedAlert, LoginPath, true)
    else
      RenderChildren
  }

  /** Only the two session keys matter: writing or removing any other key
      (the legacy `adminToken` included) never changes the decision. */
  lemma OnlySessionKeysMatter(m: Store, k: string, v: string)
    requires k != TokenKey && k != RoleKey
    ensures Decide(m[k := v]) == Decide(m)
    ensures Decide(m - {k}) == Decide(m)
  {
  }

  /** An empty stored token counts as missing. */
  lemma EmptyTokenRedirects(m: Store)
    requires Lookup(m, TokenKey) == Some("")
    ensures Decide(m) == Redirect(LoginPath, true)
  {
  }
}
