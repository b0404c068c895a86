/** The auto-pay analytics screen: counts and revenue over the user list. */
module PaymentAnalytics {
  import opened Wrappers
  import opened Js

  const MonthlySubscriptionPrice := 499
  /** Thirty days in milliseconds: the distance from now to the end of the window. */
  const WindowLength := 30 * 24 * 60 * 60 * 1000
  const AuthMissingMessage := "Authentication missing."
  const FetchFailedMessage := "Failed to fetch payment stats. Check API connection."

  /** A user as the analytics read it. `nextBillingDate` is the billing instant
      in milliseconds, None when it is missing or does not parse as a date. */
  datatype User = User(autoPayStatus: bool, nextBillingDate: Option<int>)

  datatype Stats = Stats(
    totalUsers: int,
    autoPayOn: int,
    autoPayOff: int,
    upcomingPayments: int,
    estimatedMonthlyRevenue: int,
    upcomingRevenue: int)

  /** `users.filter(u => u.autoPayStatus).length`. */
  function CountAutoPayOn(users: seq<User>): (n: nat)
    ensures n <= |users|
  {
    if users == [] then 0
    else CountAutoPayOn(users[1..]) + (if users[0].autoPayStatus then 1 else 0)
  }

  /** The users whose auto-pay is off, counted on their own. */
  function CountAutoPayOff(users: seq<User>): (n: nat)
    ensures n <= |users|
  {
    if users == [] then 0
    else CountAutoPayOff(users[1..]) + (if users[0].autoPayStatus then 0 else 1)
  }

  /** The billing date lies in the window [today, today + 30 days]. */
  predicate InWindow(date: Option<int>, today: int) {
    date.Some? && today <= date.value <= today + WindowLength
  }

  /** Auto-pay users billed within the window: never more than the auto-pay users. */
  function CountUpcoming(users: seq<User>, today: int): (n: nat)
    ensures n <= CountAutoPayOn(users)
  {
    if users == [] then 0
    else CountUpcoming(users[1..], today)
         + (if users[0].autoPayStatus && InWindow(users[0].nextBillingDate, today) then 1 else 0)
  }

  /** No payment is upcoming exactly when no auto-pay user has a billing date
      in the window. */
  lemma {:induction false} NoUpcomingIff(users: seq<User>, today: int)
    ensures CountUpcoming(users, today) == 0 <==>
              forall i :: 0 <= i < |users| ==> !(users[i].autoPayStatus && InWindow(users[i].nextBillingDate, today))
  {
    if users != [] {
      NoUpcomingIff(users[1..], today);
      assert forall i :: 1 <= i < |users| ==> users[i] == users[1..][i - 1];
    }
  }

  /** Every user is counted exactly once as on or off. */
  lemma {:induction false} OnOffPartition(users: seq<User>)
    ensures CountAutoPayOn(users) + CountAutoPayOff(users) == |users|
  {
    if users != [] {
      OnOffPartition(users[1..]);
    }
  }

  /** The stats object assembled from the user list. */
  function ComputeStats(users: seq<User>, today: int): (s: Stats)
    ensures s.totalUsers == |users|
    ensures s.autoPayOn == CountAutoPayOn(users)
    ensures s.autoPayOff == CountAutoPayOff(users)
    ensures 0 <= s.autoPayOff && 0 <= s.autoPayOn
    ensures s.autoPayOn + s.autoPayOff == s.totalUsers
    ensures s.upcomingPayments == CountUpcoming(users, today)
    ensures 0 <= s.upcomingPayments <= s.autoPayOn
    ensures s.estimatedMonthlyRevenue == s.autoPayOn * MonthlySubscriptionPrice
    ensures s.upcomingRevenue == s.upcomingPayments * MonthlySubscriptionPrice
    ensures 0 <= s.upcomingRevenue <= s.estimatedMonthlyRevenue
  {
    var totalUsers := |users|;
    var autoPayOn := CountAutoPayOn(users);
    var autoPayOff := totalUsers - autoPayOn;
    var upcomingPayments := CountUpcoming(users, today);
    OnOffPartition(users);
    Stats(totalUsers, autoPayOn, autoPayOff, upcomingPayments,
          autoPayOn * MonthlySubscriptionPrice, upcomingPayments * MonthlySubscriptionPrice)
  }

  /** The users request's outcome: a response with its `ok` flag and the
      `data` field of its JSON body, or a thrown error (rejected fetch, body
      that is not JSON). */
  datatype UsersReply = UsersResponse(ok: bool, data: Option<seq<User>>) | UsersThrew

  /** The screen state once `fetchPaymentStats` has finished: no longer loading,
      an error or the stats, and whether the request was sent at all. */
  datatype Screen = Screen(loading: bool, error: string, stats: Option<Stats>, requestSent: bool)

  /** `fetchPaymentStats`, with `token` as read from storage, `reply` as what the
      request would return, and `today` the current instant. */
  function FetchPaymentStats(token: Option<string>, reply: UsersReply, today: int): (s: Screen)
    ensures !s.loading
    ensures s.requestSent <==> Truthy(token)
    ensures s.stats.Some? <==> s.error == ""
    ensures !Truthy(token) ==> s.error == AuthMissingMessage
    ensures Truthy(token) && !(reply.UsersResponse? && reply.ok) ==> s.error == FetchFailedMessage
    ensures Truthy(token) && reply.UsersResponse? && reply.ok ==>
              s.stats == Some(ComputeStats(reply.data.GetOr([]), today))
  {
    if !Truthy(token) then Screen(false, AuthMissingMessage, None, false)
    else match reply
      case UsersResponse(ok, data) =>
        if !ok then Screen(false, FetchFailedMessage, None, true)
        else Screen(false, "", Some(ComputeStats(data.GetOr([]), today)), true)
      case UsersThrew => Screen(false, FetchFailedMessage, None, true)
  }
}
