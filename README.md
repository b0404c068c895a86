# RCM AI admin console: session gates, batch video import and payment analytics

This project is a verified Dafny model of the logic inside a React admin
console. Almost all of the console fetches data and renders it. Once network
replies are treated as inputs, three sequential, deterministic pieces remain:

- **The session store and the route guards.** The browser's local storage is
  a `map<string, string>` held by the `BrowserStorage.LocalStorage` class,
  which has `GetItem`, `SetItem` and `RemoveItem`. The code uses two key
  families, kept apart here exactly as the code has them:
  - `token`/`userRole`: written by the main login page, cleared by the layout's
    logout, read by `AdminProtectedRoute` and `ProtectedRoute`.
  - the legacy `adminToken`: written by the legacy login page, removed by the
    legacy dashboard's logout, read by the legacy `ProtectedRoute`.

  Each guard is a function from the storage map to a `Navigation.Decision`:
  `RenderChildren`, `Redirect(path, replace)` or
  `DenyThenRedirect(alert, path, replace)`. Because a guard is a function of
  the map, it cannot modify storage.
- **The batch video import** (`VideoManagement`). It covers:
  - the pasted text turned into a URL list: split on `'\n'`, then non-blank
    lines kept;
  - the validation order (empty list, then missing token);
  - the request body;
  - the state changes on success and failure;
  - the list refresh;
  - the YouTube embed link;
  - the edit dialog's save call.

  The screen's React state is the class `VideoManagementPage`, with fields
  `urls`, `videoType`, `isImporting`, `importMessage`, `importMessageType`,
  `leaderVideos`, `productVideos` and `loading`. The submit button is
  disabled while `isImporting` is true (`SubmitDisabled`); the handler itself
  has no guard.
- **The payment analytics** (`PaymentAnalytics`): counting and
  multiplication over the user list. Billing dates are integer millisecond
  timestamps.

Each asynchronous handler is split at its `await` into two methods. The
first does everything before the request goes out (`StartLogin`,
`HandleBatchScrapeImport`, `BeginFetchVideos`). The second takes the
server's reply as a datatype and does the rest (`FinishLogin`,
`CompleteImport`, `CompleteFetchVideos`). Browser effects are returned as
values: alerts, navigation, the `window.open` target and the confirmation
prompt. The answer to `window.confirm` is an input boolean.

The model follows the code as written. Lines are split on `'\n'` only and stay
untrimmed. Nothing is de-duplicated. The request body carries only `urls` and
`videoType`. The only guard is the disabled button. Both key families stay.

Modules: `Wrappers` (Option), `Js` (string truthiness and `a || b`), `Text`
(split/join, trim, `indexOf`, decimal rendering), `BrowserStorage`, `Session`
(keys and the access predicates), `Navigation`. Then one module per source
file: `AdminProtectedRoute`, `ProtectedRoute`, `LegacyProtectedRoute`,
`LoginPage`, `LegacyLoginPage`, `Layout`, `LegacyAdminDashboard`,
`VideoManagement`, `PaymentAnalytics`.

## Model

| member | source | states |
|---|---|---|
| BrowserStorage.Lookup | src/components/AdminProtectedRoute.js:8-9 | `getItem` gives the stored string exactly when the key is present, and null otherwise |
| BrowserStorage.LocalStorage.constructor | src/components/AdminProtectedRoute.js:8-9 | storage starts with the given contents |
| BrowserStorage.LocalStorage.GetItem | src/components/AdminProtectedRoute.js:8-9 | reading returns the lookup of the key and changes nothing |
| BrowserStorage.LocalStorage.SetItem | src/components/LoginPage.js:36-37 | writing overwrites that key only |
| BrowserStorage.LocalStorage.RemoveItem | src/components/Layout.js:8-9 | removing drops that key only; removing an absent key is a no-op |
| Js.Or | src/components/LoginPage.js:40 | `v \|\| fallback` is `v` when truthy and `fallback` otherwise |
| AdminProtectedRoute.Decide | src/components/AdminProtectedRoute.js:6-25 | children render iff `token` is non-empty and `userRole` is exactly "ADMIN"; a missing or empty token replace-redirects to /login and never alerts; a token with another role alerts access-denied, then replace-redirects to /login |
| AdminProtectedRoute.OnlySessionKeysMatter | src/components/AdminProtectedRoute.js:8-9 | writing or removing any key other than `token` and `userRole` leaves the decision unchanged |
| AdminProtectedRoute.EmptyTokenRedirects | src/components/AdminProtectedRoute.js:12-14 | a stored empty token counts as missing |
| ProtectedRoute.Decide | src/components/ProtectedRoute.js:4-22 | missing token: replace-redirect to /login; token with a non-ADMIN role: alert, then redirect; token with ADMIN: render |
| ProtectedRoute.AgreesWithAdminGuard | src/components/ProtectedRoute.js:9-21 | for every storage state this guard decides exactly as `AdminProtectedRoute` |
| LegacyProtectedRoute.Decide | src/ProtectedRoute.js:4-14 | renders iff `adminToken` is truthy; otherwise redirects to /login without `replace`; never alerts |
| LegacyProtectedRoute.OnlyAdminTokenMatters | src/ProtectedRoute.js:5 | no key but `adminToken` affects the decision, `token` and `userRole` included |
| LoginPage.SessionAfterLogin | src/components/LoginPage.js:35-43 | an ok reply stores `token`, then `userRole` when `data.user` exists; a refused or unreachable login leaves storage unchanged; no other key changes |
| LoginPage.LoginEffect | src/components/LoginPage.js:35-43 | navigation to /dashboard happens iff the reply is ok and carries a user; a refused login alerts `data.message` or "Login failed."; every other outcome (no reply, or an ok reply without a user) alerts exactly "Network error. Check backend." |
| LoginPage.LoginPage.constructor | src/components/LoginPage.js:14-18 | empty forms; not loading |
| LoginPage.LoginPage.SetLoginData | src/components/LoginPage.js:113-123 | the login form holds the typed id and password |
| LoginPage.LoginPage.SetRequestData | src/components/LoginPage.js:148-158 | the request form holds the typed name and RCM id |
| LoginPage.LoginPage.SetVerificationCode | src/components/LoginPage.js:176 | the code field holds the typed code |
| LoginPage.LoginPage.StartLogin | src/components/LoginPage.js:24-32 | `loading` turns on, so the submit button is disabled, and the posted body is the login form |
| LoginPage.LoginPage.SubmitDisabled | src/components/LoginPage.js:128 | the submit button is disabled exactly while `loading`; `StartLogin` ensures it is disabled and `FinishLogin` that it is enabled again |
| LoginPage.LoginPage.FinishLogin | src/components/LoginPage.js:33-46 | storage becomes `SessionAfterLogin` of the reply, the effect is `LoginEffect`, and `loading` is off after any outcome, re-enabling the submit button |
| LoginPage.AdminLoginOpensGuard | src/components/LoginPage.js:36-37 | after a successful login with role "ADMIN", `AdminProtectedRoute` renders its children |
| LoginPage.NonAdminLoginIsDenied | src/components/LoginPage.js:36-37 | after a successful login with another role, the admin guard shows access-denied |
| LoginPage.FailedLoginKeepsGuardDecision | src/components/LoginPage.js:39-43 | a failed login leaves the guard's decision as it was |
| LoginPage.VerifyCode | src/components/LoginPage.js:64-71 | navigates to /admin/signup iff the code equals the secret exactly and the operator confirms; a matching code asks exactly "Code Verified! Redirecting to Admin Setup..."; a wrong code alerts the invalid-code message and prompts nothing |
| LoginPage.RequestBody | src/components/LoginPage.js:57 | the middle of the message is the name, then the "\nRCM ID: " label, then the id, each at its stated position |
| LoginPage.RequestMessage | src/components/LoginPage.js:57 | the message is the fixed greeting, then that body, then the fixed closing, each at its stated position |
| LoginPage.RequestMessageRoundTrip | src/components/LoginPage.js:57 | for a single-line name, the name and RCM id can be read back from the message exactly |
| LoginPage.MultiLineNameIsAmbiguous | src/components/LoginPage.js:57 | for all strings x, y, z, the name x + label + y with id z and the different name x with id y + label + z give the same message: a name holding a line break is ambiguous |
| LoginPage.RequestAccess | src/components/LoginPage.js:50-61 | an empty name or RCM id alerts and opens nothing; otherwise the owner's wa.me chat opens with the request message as its text |
| LegacyLoginPage.StoreAfterLogin | src/LoginPage.js:12-17 | exactly "admin123" (no trimming) stores `adminToken = "dummy_token_for_auth"`; anything else leaves storage unchanged; no other key is ever written |
| LegacyLoginPage.LoginPage.constructor | src/LoginPage.js:5-6 | empty password; no error |
| LegacyLoginPage.LoginPage.SetPassword | src/LoginPage.js:27 | the field holds the typed password |
| LegacyLoginPage.LoginPage.HandleLogin | src/LoginPage.js:9-18 | the right password writes the token and navigates to /dashboard; any other sets the error and neither writes nor navigates |
| LegacyLoginPage.NoTrimming | src/LoginPage.js:12 | an illustration of the exact comparison: the password with a leading or trailing space is refused |
| LegacyLoginPage.LoginOpensLegacyGuard | src/LoginPage.js:13 | after a successful legacy login, the legacy guard renders |
| LegacyLoginPage.AdminGuardUnaffected | src/LoginPage.js:13 | the legacy login never writes `token` or `userRole`, so the admin guard decides as before |
| Layout.AfterLogout | src/components/Layout.js:8-9 | `token` and `userRole` are gone; every other key, `adminToken` included, keeps its value |
| Layout.HandleLogout | src/components/Layout.js:6-11 | storage becomes `AfterLogout`, and navigation goes to /login |
| Layout.LogoutIdempotent | src/components/Layout.js:8-9 | logging out twice leaves the same storage as once |
| Layout.GuardRedirectsAfterLogout | src/components/Layout.js:8-9 | after logout the admin guard replace-redirects to /login |
| Layout.LegacySessionSurvivesLogout | src/components/Layout.js:8-9 | this logout does not change the legacy guard's decision |
| LegacyAdminDashboard.AfterLogout | src/AdminDashboard.js:26 | `adminToken` is gone; every other key keeps its value |
| LegacyAdminDashboard.HandleLogout | src/AdminDashboard.js:25-28 | storage becomes `AfterLogout`, and navigation goes to /login |
| LegacyAdminDashboard.LogoutIdempotent | src/AdminDashboard.js:26 | logging out twice is the same as once |
| LegacyAdminDashboard.SessionKeysUntouched | src/AdminDashboard.js:26 | `token` and `userRole` are left as they were |
| LegacyAdminDashboard.LegacyGuardRedirectsAfterLogout | src/AdminDashboard.js:26 | after this logout the legacy guard redirects to /login |
| LegacyAdminDashboard.AdminGuardUnaffected | src/AdminDashboard.js:26 | the admin guard's decision is unchanged by the legacy logout |
| Text.Split | src/components/VideoManagement.js:100 | `split('\n')` gives at least one piece, and no piece contains the separator |
| Text.JoinSplit | src/components/VideoManagement.js:100 | joining the pieces with the separator gives back the text |
| Text.SplitJoin | src/components/VideoManagement.js:100 | splitting a join of separator-free pieces gives those pieces back, so `Split` is the only such decomposition |
| Text.SplitCount | src/components/VideoManagement.js:100 | there is one more piece than there are separators |
| Text.TrimEmptyIff | src/components/VideoManagement.js:100 | `trim()` is empty exactly when every character is JavaScript whitespace |
| Text.Trim | src/components/VideoManagement.js:100 | `trim()` never lengthens the string |
| Text.TrimSpec | src/components/VideoManagement.js:100 | `trim()` is the contiguous slice of the string left after a whitespace-only prefix and suffix, and it neither starts nor ends with whitespace |
| Text.NatToString | src/components/VideoManagement.js:115 | `${n}` is the shortest decimal digit string that reads back as `n` |
| VideoManagement.VideoType.Name | src/components/VideoManagement.js:215-218 | the selector's two values, "leaders" and "products", one per list |
| VideoManagement.KeepNonBlank | src/components/VideoManagement.js:100 | never more lines out than in, and no kept line is blank |
| VideoManagement.KeepNonBlankSpec | src/components/VideoManagement.js:100 | keeps the non-blank lines untrimmed, in order, as often as each occurs; every kept line is an input line |
| VideoManagement.UrlList | src/components/VideoManagement.js:100 | the URL list has no more entries than the text has lines, and none of them is blank |
| VideoManagement.UrlListSpec | src/components/VideoManagement.js:100 | every entry is one whole line of the text; every non-blank line appears; original order is kept |
| VideoManagement.UrlListEmptyIff | src/components/VideoManagement.js:100-106 | the list is empty exactly when the pasted text is whitespace only |
| VideoManagement.FailureReason | src/components/VideoManagement.js:130-141 | a failed response reports `data.message`, or exactly "Failed to import videos." when that is missing or empty; a thrown error reports its own message |
| VideoManagement.ImportingMessage | src/components/VideoManagement.js:115 | the message is "Importing " and " video(s)... This may take a moment." around the shortest decimal form of the URL count: digits that read back as the count, with no leading zero |
| VideoManagement.RefreshShowsBackendList | src/components/VideoManagement.js:80-81 | a successful list response replaces its list with exactly `data \|\| []`; an unsuccessful one keeps the list; each list depends only on its own response |
| VideoManagement.Refreshed | src/components/VideoManagement.js:77-84 | a thrown error leaves the list as it was |
| VideoManagement.LoadErrorMessage | src/components/VideoManagement.js:84 | "Error: " followed by the error's message, or by "Failed to load existing videos." when the message is empty |
| VideoManagement.EmbedUrl | src/components/VideoManagement.js:184-189 | an 11-character `publicId` gives the embed link, and that id can be read back from it; any other `publicId` returns `url` unchanged |
| VideoManagement.VideoManagementPage.constructor | src/components/VideoManagement.js:42-54 | the initial React state; the token is read from storage |
| VideoManagement.VideoManagementPage.SetUrls | src/components/VideoManagement.js:207 | the text area holds the typed text |
| VideoManagement.VideoManagementPage.SetVideoType | src/components/VideoManagement.js:215 | the selector holds the chosen type |
| VideoManagement.VideoManagementPage.BeginFetchVideos | src/components/VideoManagement.js:57-64 | without a token: the missing-token error, no request, not loading; otherwise the requests go out with `loading` on and the message untouched |
| VideoManagement.VideoManagementPage.CompleteFetchVideos | src/components/VideoManagement.js:66-88 | each list is refreshed from its own response; a thrown error shows "Error: " plus its message (or the fallback); `loading` ends off |
| VideoManagement.VideoManagementPage.HandleBatchScrapeImport | src/components/VideoManagement.js:96-127 | an empty list sets the paste error and sends nothing, before any token check; then a missing token sets the login error and sends nothing; `isImporting` is unchanged in both cases; else the body is exactly the list and `videoType`, `isImporting` turns on and an info message gives the count |
| VideoManagement.VideoManagementPage.CompleteImport | src/components/VideoManagement.js:129-144 | on `ok && success`: `data.message` with type success, `urls` cleared, refetch started; otherwise: "Import Failed: " plus the reason, `urls` kept; `isImporting` is off either way, so the button is enabled again |
| VideoManagement.VideoManagementPage.SubmitDisabled | src/components/VideoManagement.js:221 | the import button is disabled exactly while `isImporting`; `HandleBatchScrapeImport` ensures it is disabled once a request is sent and `CompleteImport` that it is enabled again |
| VideoManagement.EditModal.constructor | src/components/VideoManagement.js:8-10 | the dialog starts with the video's title and description |
| VideoManagement.EditModal.SetTitle | src/components/VideoManagement.js:22 | the title field holds the typed text |
| VideoManagement.EditModal.SetDescription | src/components/VideoManagement.js:26 | the description field holds the typed text |
| VideoManagement.EditModal.HandleSave | src/components/VideoManagement.js:12-14 | the save call carries the video's id and list type, and a payload of exactly the title and description |
| VideoManagement.SaveUnedited | src/components/VideoManagement.js:8-14 | opening the dialog and saving at once sends the video's own title and description |
| PaymentAnalytics.CountAutoPayOn | src/components/PaymentAnalytics.js:36 | the auto-pay count never exceeds the number of users |
| PaymentAnalytics.CountAutoPayOff | src/components/PaymentAnalytics.js:37 | an independent count of users without auto-pay, at most the number of users; `OnOffPartition` shows it equals `totalUsers - autoPayOn` |
| PaymentAnalytics.CountUpcoming | src/components/PaymentAnalytics.js:44-46 | users with auto-pay and a billing date in [today, today + 30 days] never outnumber the auto-pay users |
| PaymentAnalytics.InWindow | src/components/PaymentAnalytics.js:45 | a billing date counts when it is present and lies between today and today plus 30 days, both ends included |
| PaymentAnalytics.NoUpcomingIff | src/components/PaymentAnalytics.js:44-46 | no payment is upcoming exactly when no auto-pay user has a billing date in the window |
| PaymentAnalytics.OnOffPartition | src/components/PaymentAnalytics.js:35-37 | every user is counted once, as auto-pay on or off |
| PaymentAnalytics.ComputeStats | src/components/PaymentAnalytics.js:34-51 | `totalUsers` is the user count; `autoPayOff = totalUsers - autoPayOn` equals the number of users without auto-pay; `upcomingPayments` is exactly the count of auto-pay users billed within the 30-day window (`CountUpcoming`); upcoming ≤ auto-pay on; revenues are the counts times 499; upcoming revenue ≤ estimated revenue |
| PaymentAnalytics.FetchPaymentStats | src/components/PaymentAnalytics.js:12-58 | a missing token gives "Authentication missing.", with no request and no stats; a non-ok response or a thrown error gives the single fixed error and no stats; otherwise the stats of `data \|\| []`; loading ends off |

## Left out

- Network calls, JSON parsing and the API base-URL setting: each reply is a
  datatype parameter. A missing base URL or an unparsable body becomes the
  reply's thrown-error case.
- `Promise.all` and async interleaving: both list replies arrive together as
  one `FetchOutcome`. A reply that arrives after the screen has left is not
  modelled.
- The gates re-read storage on every render. The video screen reads its
  token once, at construction, because that component never writes storage.
- `encodeURIComponent`: `WhatsAppLink` holds the number and the unencoded
  message text, not the final URL string.
- `alert`, `window.open` and `window.confirm` are returned values or input
  booleans. Their behaviour is not modelled.
- Dates: `new Date` parsing is not modelled. A billing date that is missing
  or unparsable is `None`. The window end is today plus thirty days of 24
  hours, so a daylight-saving shift within those days is not modelled.
- `autoPayStatus` truthiness is a `bool`. Other JavaScript value kinds are
  not modelled.
- Strings are sequences of Unicode scalar values. JavaScript's `.length`
  counts UTF-16 code units, so the 11-character `publicId` check agrees only
  for ids without astral characters (YouTube ids are ASCII).
- `VideoManagement.VideoManagementPage.CompleteImport`: a successful import
  whose `data.message` is missing is modelled as showing "". The source
  stores `undefined`, which renders the same.
- `handleDelete` and `handleUpdate` in src/components/VideoManagement.js
  are not modelled: the delete confirmation, the two requests, closing the
  dialog after an update and their error alerts are outside the model.
- The in-flight state of PaymentAnalytics (`loading` true, before the reply)
  is not a separate state. `FetchPaymentStats` gives the state once the
  fetch has finished.
- JSX, CSS and the static navigation are not modelled.
- The subscriber fetch in src/AdminDashboard.js is not modelled.
- These screens only fetch and render, and are not modelled: user, admin,
  subscriber and chat lists, voice training, notifications, admin signup.
