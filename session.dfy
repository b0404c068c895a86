/** The storage keys the console uses and what they mean for access.
    Two key families coexist: `token`/`userRole` and the legacy `adminToken`. */
module Session {
  import opened Wrappers
  import opened Js
  import opened BrowserStorage

  const TokenKey := "token"
  const RoleKey := "userRole"
  const AdminTokenKey := "adminToken"
  const AdminRole := "ADMIN"

  /** A truthy `token` is stored. */
  predicate Authenticated(m: Store) {
    Truthy(Lookup(m, TokenKey))
  }

  /** The stored `userRole` is exactly "ADMIN". */
  predicate HasAdminRole(m: Store) {
    Lookup(m, RoleKey) == Some(AdminRole)
  }

  /** A truthy legacy `adminToken` is stored. */
  predicate LegacyAuthenticated(m: Store) {
    Truthy(Lookup(m, AdminTokenKey))
  }
}
