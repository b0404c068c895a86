/** The logout button of the legacy dashboard: removes `adminToken` only. */
module LegacyAdminDashboard {
  import opened Wrappers
  import opened BrowserStorage
  import opened Session
  import opened Navigation
  import AdminProtectedRoute
  import LegacyProtectedRoute

  /** The storage after the legacy logout: `adminToken` gone, every other key as it was. */
  function AfterLogout(m: Store): (r: Store)
    ensures AdminTokenKey !in r
    ensures r.Keys == m.Keys - {AdminTokenKey}
    ensures forall k :: k in r ==> r[k] == m[k]
  {
    m - {AdminTokenKey}
  }

  /** `handleLogout`: one removal, then navigation to /login. */
  method HandleLogout(storage: LocalStorage) returns (navigateTo: string)
    modifies storage
    ensures storage.items == AfterLogout(old(storage.items))
    ensures navigateTo == LoginPath
  {
    storage.RemoveItem(AdminTokenKey);
    navigateTo := LoginPath;
  }

  lemma LogoutIdempotent(m: Store)
    ensures AfterLogout(AfterLogout(m)) == AfterLogout(m)
  {
  }

  /** `token` and `userRole` are untouched. */
  lemma SessionKeysUntouched(m: Store)
    ensures Lookup(AfterLogout(m), TokenKey) == Lookup(m, TokenKey)
    ensures Lookup(AfterLogout(m), RoleKey) == Lookup(m, RoleKey)
  {
  }

  /** After this logout the legacy guard redirects to /login. */
  lemma LegacyGuardRedirectsAfterLogout(m: Store)
    ensures LegacyProtectedRoute.Decide(AfterLogout(m)) == Redirect(LoginPath, false)
  {
  }

  /** ...while the admin guard decides exactly as before. */
  lemma AdminGuardUnaffected(m: Store)
    ensures AdminProtectedRoute.Decide(AfterLogout(m)) == AdminProtectedRoute.Decide(m)
  {
  }
}
