/** The legacy login page: a fixed password check that writes `adminToken`. */
module LegacyLoginPage {
  import opened Wrappers
  import opened BrowserStorage
  import opened Session
  import opened Navigation
  import AdminProtectedRoute
  import LegacyProtectedRoute

  const AdminPassword := "admin123"
  const DummyToken := "dummy_token_for_auth"
  const WrongPasswordMessage := "गलत पासवर्ड!"

  /** The storage after a login attempt with `password`: exact equality with the
      fixed password, no trimming, writes the dummy `adminToken` and nothing else. */
  function StoreAfterLogin(password: string, m: Store): (r: Store)
    ensures password == AdminPassword ==> Lookup(r, AdminTokenKey) == Some(DummyToken)
    ensures password != AdminPassword ==> r == m
    ensures forall k :: k != AdminTokenKey ==> Lookup(r, k) == Lookup(m, k)
  {
    if password == AdminPassword then m[AdminTokenKey := DummyToken] else m
  }

  class LoginPage {
    var password: string
    var error: string

    constructor ()
      ensures password == "" && error == ""
    {
      password := "";
      error := "";
    }

    method SetPassword(text: string)
      modifies this`password
      ensures password == text
    {
      password := text;
    }

    /** `handleLogin`: on the fixed password, store the dummy token and go to the
        dashboard; otherwise set the error and neither write nor navigate. */
    method HandleLogin(storage: LocalStorage) returns (navigateTo: Option<string>)
      modifies this`error, storage
      ensures storage.items == StoreAfterLogin(password, old(storage.items))
      ensures password == AdminPassword ==> navigateTo == Some(DashboardPath) && error == old(error)
      ensures password != AdminPassword ==> navigateTo == None && error == WrongPasswordMessage
    {
      if password == AdminPassword {
        storage.SetItem(AdminTokenKey, DummyToken);
        navigateTo := Some(DashboardPath);
      } else {
        error := WrongPasswordMessage;
        navigateTo := None;
      }
    }
  }

  /** An illustration of `StoreAfterLogin`'s exact comparison (the general fact is
      its `password != AdminPassword` clause): padded passwords are refused. */
  lemma NoTrimming(m: Store)
    ensures StoreAfterLogin(" admin123", m) == m
    ensures StoreAfterLogin("admin123 ", m) == m
  {
  }

  /** After a successful legacy login the legacy guard renders its children. */
  lemma LoginOpensLegacyGuard(m: Store)
    ensures LegacyProtectedRoute.Decide(StoreAfterLogin(AdminPassword, m)) == RenderChildren
  {
  }

  /** The legacy login never writes `token` or `userRole`, so it grants nothing
      the admin guard would honour. */
  lemma AdminGuardUnaffected(password: string, m: Store)
    ensures AdminProtectedRoute.Decide(StoreAfterLogin(password, m)) == AdminProtectedRoute.Decide(m)
  {
  }
}
