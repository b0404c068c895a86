/** The legacy route guard of src/ProtectedRoute.js: one read of `adminToken`. */
module LegacyProtectedRoute {
  import opened Wrappers
  import opened Js
  import opened BrowserStorage
  import opened Session
  import opened Navigation

  /** No role and no alert: a truthy `adminToken` renders, anything else
      navigates to /login without `replace`. */
  function Decide(m: Store): (d: Decision)
    ensures d == RenderChildren <==> LegacyAuthenticated(m)
    ensures !LegacyAuthenticated(m) ==> d == Redirect(LoginPath, false)
    ensures !d.DenyThenRedirect?
  {
    var token := Lookup(m, AdminTokenKey);
    if !Truthy(token) then Redirect(LoginPath, false) else RenderChildren
  }

  /** Neither `token` nor `userRole` (nor any other key) affects the decision. */
  lemma OnlyAdminTokenMatters(m: Store, k: string, v: string)
    requires k != AdminTokenKey
    ensures Decide(m[k := v]) == Decide(m)
    ensures Decide(m - {k}) == Decide(m)
  {
  }
}
