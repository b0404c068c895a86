/** The main login page: backend login writing the `token`/`userRole` session,
    the secret-code check, and the WhatsApp access request. */
module LoginPage {
  import opened Wrappers
  import opened Js
  import opened Text
  import opened BrowserStorage
  import opened Session
  import opened Navigation
  import AdminProtectedRoute

  const OwnerWhatsAppNumber := "917722923842"
  const SecretAccessCode := "Qazxsw@123"
  const LoginFailedFallback := "Login failed."
  const NetworkErrorMessage := "Network error. Check backend."
  const MissingDetailsMessage := "Please fill in all details."
  const CodeVerifiedPrompt := "Code Verified! Redirecting to Admin Setup..."
  const InvalidCodeMessage := "❌ Invalid Access Code. Ask the owner for the correct code."
  const RequestGreeting := "Hello Owner, I want to become an Admin for RCM AI.\n\nName: "
  const RequestIdLabel := "\nRCM ID: "
  const RequestClosing := "\n\nPlease verify me and provide the Admin Access Code."

  /** The JSON body posted to the login endpoint. */
  datatype LoginRequest = LoginRequest(loginId: string, password: string)

  /** What the login request produced. `Answered` is a parsed JSON reply:
      `token` is `data.token` as stored, `role` is `data.user.role` (None when
      `data.user` is missing) and `message` is `data.message`. `Unreachable`
      is a rejected fetch or a body that is not JSON. */
  datatype LoginReply =
    | Answered(ok: bool, token: string, role: Option<string>, message: Option<string>)
    | Unreachable

  /** The browser effects of a handler: an `alert` and a `navigate`. */
  datatype Effect = Effect(alert: Option<string>, navigateTo: Option<string>)

  /** The storage after the login reply is handled. On an ok reply `token` is
      written first; `userRole` follows only if `data.user` exists (reading the
      role of a missing user throws after the first write). Otherwise storage
      is untouched. */
  function SessionAfterLogin(m: Store, reply: LoginReply): (r: Store)
    ensures reply.Answered? && reply.ok ==> Lookup(r, TokenKey) == Some(reply.token)
    ensures reply.Answered? && reply.ok && reply.role.Some? ==> Lookup(r, RoleKey) == reply.role
    ensures reply.Answered? && reply.ok && reply.role.None? ==> Lookup(r, RoleKey) == Lookup(m, RoleKey)
    ensures !(reply.Answered? && reply.ok) ==> r == m
    ensures forall k :: k != TokenKey && k != RoleKey ==> Lookup(r, k) == Lookup(m, k)
  {
    match reply
    case Answered(ok, token, role, _) =>
      if !ok then m
      else if role.None? then m[TokenKey := token]
      else m[TokenKey := token][RoleKey := role.value]
    case Unreachable => m
  }

  /** The alert or navigation that follows the login reply. */
  function LoginEffect(reply: LoginReply): (e: Effect)
    ensures e.navigateTo.Some? <==> reply.Answered? && reply.ok && reply.role.Some?
    ensures e.navigateTo.Some? ==> e.navigateTo == Some(DashboardPath) && e.alert.None?
    ensures e.navigateTo.None? ==> e.alert.Some? && e.alert.value != ""
    ensures !(reply.Answered? && !reply.ok) && e.navigateTo.None? ==> e.alert == Some(NetworkErrorMessage)
    ensures reply.Answered? && !reply.ok ==> e.alert == Some(Or(reply.message, LoginFailedFallback))
  {
    match reply
    case Answered(ok, _, role, message) =>
      if !ok then Effect(Some(Or(message, LoginFailedFallback)), None)
      else if role.None? then Effect(Some(NetworkErrorMessage), None)
      else Effect(None, Some(DashboardPath))
    case Unreachable => Effect(Some(NetworkErrorMessage), None)
  }

  class LoginPage {
    var loginId: string
    var password: string
    var name: string
    var rcmId: string
    var verificationCode: string
    var loading: bool

    constructor ()
      ensures loginId == "" && password == "" && name == "" && rcmId == ""
      ensures verificationCode == "" && !loading
    {
      loginId, password := "", "";
      name, rcmId := "", "";
      verificationCode := "";
      loading := false;
    }

    method SetLoginData(id: string, pass: string)
      modifies this`loginId, this`password
      ensures loginId == id && password == pass
    {
      loginId, password := id, pass;
    }

    method SetRequestData(fullName: string, id: string)
      modifies this`name, this`rcmId
      ensures name == fullName && rcmId == id
    {
      name, rcmId := fullName, id;
    }

    method SetVerificationCode(code: string)
      modifies this`verificationCode
      ensures verificationCode == code
    {
      verificationCode := code;
    }

    /** The submit button is disabled while a login is in flight. */
    predicate SubmitDisabled()
      reads this
    {
      loading
    }

    /** `handleLogin` up to the `await`: `loading` turns on and the form is posted. */
    method StartLogin() returns (request: LoginRequest)
      modifies this`loading
      ensures loading && SubmitDisabled()
      ensures request == LoginRequest(loginId, password)
    {
      loading := true;
      request := LoginRequest(loginId, password);
    }

    /** `handleLogin` after the `await`: write the session, alert or navigate,
        and turn `loading` off whatever the outcome. */
    method FinishLogin(storage: LocalStorage, reply: LoginReply) returns (effect: Effect)
      modifies this`loading, storage
      ensures !loading && !SubmitDisabled()
      ensures storage.items == SessionAfterLogin(old(storage.items), reply)
      ensures effect == LoginEffect(reply)
    {
      match reply {
        case Answered(ok, token, role, message) =>
          if ok {
            storage.SetItem(TokenKey, token);
            if role.Some? {
              storage.SetItem(RoleKey, role.value);
              effect := Effect(None, Some(DashboardPath));
            } else {
              effect := Effect(Some(NetworkErrorMessage), None);
            }
          } else {
            effect := Effect(Some(Or(message, LoginFailedFallback)), None);
          }
        case Unreachable =>
          effect := Effect(Some(NetworkErrorMessage), None);
      }
      loading := false;
    }
  }

  /** A login answered with role "ADMIN" opens the admin guard. */
  lemma AdminLoginOpensGuard(m: Store, token: string, message: Option<string>)
    requires token != ""
    ensures AdminProtectedRoute.Decide(SessionAfterLogin(m, Answered(true, token, Some(AdminRole), message))) == RenderChildren
  {
  }

  /** A login answered with any other role leads to the access-denied alert. */
  lemma NonAdminLoginIsDenied(m: Store, token: string, role: string, message: Option<string>)
    requires token != "" && role != AdminRole
    ensures AdminProtectedRoute.Decide(SessionAfterLogin(m, Answered(true, token, Some(role), message))).DenyThenRedirect?
  {
  }

  /** A refused or unreachable login changes nothing the admin guard reads. */
  lemma FailedLoginKeepsGuardDecision(m: Store, reply: LoginReply)
    requires !(reply.Answered? && reply.ok)
    ensures AdminProtectedRoute.Decide(SessionAfterLogin(m, reply)) == AdminProtectedRoute.Decide(m)
  {
  }

  /** The effects of the secret-code check: a confirmation prompt, an alert,
      and a navigation. */
  datatype VerifyEffect = VerifyEffect(confirmPrompt: Option<string>, alert: Option<string>, navigateTo: Option<string>)

  /** `handleVerifyCode`; `userConfirms` is the answer the operator would give
      to `window.confirm`, consulted only when the code matches. */
  function VerifyCode(code: string, userConfirms: bool): (e: VerifyEffect)
    ensures e.navigateTo.Some? <==> code == SecretAccessCode && userConfirms
    ensures e.navigateTo.Some? ==> e.navigateTo.value == AdminSignupPath
    ensures e.confirmPrompt.Some? <==> code == SecretAccessCode
    ensures code == SecretAccessCode ==> e.confirmPrompt == Some(CodeVerifiedPrompt)
    ensures code != SecretAccessCode ==> e.alert == Some(InvalidCodeMessage)
    ensures code == SecretAccessCode ==> e.alert.None?
  {
    if code == SecretAccessCode then
      VerifyEffect(Some(CodeVerifiedPrompt), None, if userConfirms then Some(AdminSignupPath) else None)
    else
      VerifyEffect(None, Some(InvalidCodeMessage), None)
  }

  /** The middle of the message: the name, the RCM-id label, then the id. */
  function RequestBody(name: string, rcmId: string): (body: string)
    ensures |body| == |name| + |RequestIdLabel| + |rcmId|
    ensures body[..|name|] == name
    ensures body[|name|..|name| + |RequestIdLabel|] == RequestIdLabel
    ensures body[|name| + |RequestIdLabel|..] == rcmId
  {
    name + RequestIdLabel + rcmId
  }

  /** The message sent to the owner: the fixed greeting, the body with the
      requester's name and RCM id, and the fixed closing. */
  function RequestMessage(name: string, rcmId: string): (msg: string)
    ensures |msg| == |RequestGreeting| + |RequestBody(name, rcmId)| + |RequestClosing|
    ensures msg[..|RequestGreeting|] == RequestGreeting
    ensures msg[|RequestGreeting|..|msg| - |RequestClosing|] == RequestBody(name, rcmId)
    ensures msg[|msg| - |RequestClosing|..] == RequestClosing
  {
    RequestGreeting + RequestBody(name, rcmId) + RequestClosing
  }

  /** Reads the name and RCM id back out of an owner message. */
  function ParseRequestMessage(msg: string): Option<(string, string)>
  {
    if |msg| >= |RequestGreeting| + |RequestClosing|
       && msg[..|RequestGreeting|] == RequestGreeting
       && msg[|msg| - |RequestClosing|..] == RequestClosing
    then ParseRequestBody(msg[|RequestGreeting|..|msg| - |RequestClosing|])
    else None
  }

  /** The name is the text up to the first line break, the id what follows the label. */
  function ParseRequestBody(body: string): Option<(string, string)>
  {
    var i := IndexOf(body, '\n');
    if i + |RequestIdLabel| <= |body| && body[i..i + |RequestIdLabel|] == RequestIdLabel
    then Some((body[..i], body[i + |RequestIdLabel|..]))
    else None
  }

  lemma RequestBodyRoundTrip(name: string, rcmId: string)
    requires '\n' !in name
    ensures ParseRequestBody(RequestBody(name, rcmId)) == Some((name, rcmId))
  {
    var body := RequestBody(name, rcmId);
    assert body == name + (RequestIdLabel + rcmId);
    IndexOfAfter(name, RequestIdLabel + rcmId, '\n');
  }

  /** The owner can read the request back exactly, provided the name is a single line. */
  lemma RequestMessageRoundTrip(name: string, rcmId: string)
    requires '\n' !in name
    ensures ParseRequestMessage(RequestMessage(name, rcmId)) == Some((name, rcmId))
  {
    RequestBodyRoundTrip(name, rcmId);
  }

  /** Without that proviso the template is ambiguous: two different requests give the same text. */
  lemma MultiLineNameIsAmbiguous(x: string, y: string, z: string)
    ensures x + RequestIdLabel + y != x
    ensures RequestMessage(x + RequestIdLabel + y, z) == RequestMessage(x, y + RequestIdLabel + z)
  {
    assert |x + RequestIdLabel + y| > |x|;
    assert RequestBody(x + RequestIdLabel + y, z) == RequestBody(x, y + RequestIdLabel + z);
  }

  /** The link `window.open` receives: the owner's wa.me chat with `text` as the
      prefilled message (before URI encoding). */
  datatype WhatsAppLink = WhatsAppLink(phone: string, text: string)

  datatype AccessRequest = MissingDetails(alert: string) | OpenChat(link: WhatsAppLink)

  /** `handleRequestAccess`: an empty name or RCM id (no trimming) alerts and
      opens nothing; otherwise the owner's chat opens with the request message. */
  function RequestAccess(name: string, rcmId: string): (r: AccessRequest)
    ensures r.MissingDetails? <==> name == "" || rcmId == ""
    ensures r.MissingDetails? ==> r.alert == MissingDetailsMessage
    ensures r.OpenChat? ==> r.link.phone == OwnerWhatsAppNumber
    ensures r.OpenChat? ==> r.link.text == RequestMessage(name, rcmId)
  {
    if name == "" || rcmId == "" then MissingDetails(MissingDetailsMessage)
    else
      OpenChat(WhatsAppLink(OwnerWhatsAppNumber, RequestMessage(name, rcmId)))
  }
}
