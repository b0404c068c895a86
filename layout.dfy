/** The logout button of the main layout: clears the `token`/`userRole` session. */
module Layout {
  import opened Wrappers
  import opened BrowserStorage
  import opened Session
  import opened Navigation
  import AdminProtectedRoute
  import LegacyProtectedRoute

  /** The storage after logout: both session keys gone, every other key as it was. */
  function AfterLogout(m: Store): (r: Store)
    ensures TokenKey !in r && RoleKey !in r
    ensures r.Keys == m.Keys - {TokenKey, RoleKey}
    ensures forall k :: k in r ==> r[k] == m[k]
  {
    m - {TokenKey, RoleKey}
  }

  /** `handleLogout`: two removals, then navigation to /login. */
  method HandleLogout(storage: LocalStorage) returns (navigateTo: string)
    modifies storage
    ensures storage.items == AfterLogout(old(storage.items))
    ensures navigateTo == LoginPath
  {
    storage.RemoveItem(TokenKey);
    storage.RemoveItem(RoleKey);
    navigateTo := LoginPath;
  }

  lemma LogoutIdempotent(m: Store)
    ensures AfterLogout(AfterLogout(m)) == AfterLogout(m)
  {
  }

  /** After logout the admin guard sends the visitor back to /login, without an alert. */
  lemma GuardRedirectsAfterLogout(m: Store)
    ensures AdminProtectedRoute.Decide(AfterLogout(m)) == Redirect(LoginPath, true)
  {
  }

  /** This logout leaves a legacy `adminToken` session in place. */
  lemma LegacySessionSurvivesLogout(m: Store)
    ensures LegacyProtectedRoute.Decide(AfterLogout(m)) == LegacyProtectedRoute.Decide(m)
  {
  }
}
