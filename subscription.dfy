/**
 * The `useSubscription` hook of the hosted edition
 * (src/hooks/useSubscription.ts): the subscription derived from the
 * profile's billing columns, the fallback after a failed query, and the two
 * questions the rest of the app asks of it. Timestamps are milliseconds;
 * the query's outcome and the current time are parameters.
 */
module Subscription {
  import opened Wrappers
  import opened Numbers
  import opened HostedTypes
  import ProfileHook

  /** One day in milliseconds, `1000 * 60 * 60 * 24`. */
  const DayMillis := 86400000

  /** The four columns the query selects; an empty timestamp is `None`. */
  datatype BillingRow = BillingRow(
    plan: Plan,
    subscriptionStatus: Option<SubscriptionStatus>,
    trialEndsAt: Option<int>,
    planExpiresAt: Option<int>)

  /** The hook's `Subscription` record. */
  datatype Subscription = Subscription(
    plan: Plan,
    subscriptionStatus: SubscriptionStatus,
    trialEndsAt: Option<int>,
    planExpiresAt: Option<int>,
    isActive: bool,
    daysRemaining: Option<int>)

  /** The record set when the query fails: free, no subscription, inactive. */
  const Fallback := Subscription(Free, NoSubscription, None, None, false, None)

  /** Whole days left until `end`, rounded up. */
  function DaysUntil(end: int, now: int): int {
    Ceil((end - now) as real / DayMillis as real)
  }

  /** The record derived from a selected row at time `now`. */
  function Derived(row: BillingRow, now: int): Subscription {
    var status := row.subscriptionStatus.GetOr(NoSubscription);
    var isActive :=
      if row.subscriptionStatus == Some(Active) then true
      else if row.subscriptionStatus == Some(Trialing) && row.trialEndsAt.Some? then row.trialEndsAt.value > now
      else false;
    var daysRemaining :=
      if row.subscriptionStatus == Some(Active) then None
      else if row.subscriptionStatus == Some(Trialing) && row.trialEndsAt.Some? then
        Some(DaysUntil(row.trialEndsAt.value, now))
      else None;
    Subscription(row.plan, status, row.trialEndsAt, row.planExpiresAt, isActive, daysRemaining)
  }

  /**
   * An active subscription is active with no countdown; a trial with an end
   * date is active until that date and counts the days left, which are
   * positive exactly while the trial is active; any other case is inactive
   * with no countdown, and a missing status reads as none.
   */
  lemma {:induction false} DerivationCases(row: BillingRow, now: int)
    ensures var s := Derived(row, now);
      (row.subscriptionStatus == Some(Active) ==> s.isActive && s.daysRemaining == None) &&
      (row.subscriptionStatus == Some(Trialing) && row.trialEndsAt.Some? ==>
        (s.isActive <==> row.trialEndsAt.value > now) &&
        s.daysRemaining.Some? &&
        (s.daysRemaining.value > 0 <==> s.isActive) &&
        (s.daysRemaining.value - 1) * DayMillis < row.trialEndsAt.value - now <= s.daysRemaining.value * DayMillis) &&
      (row.subscriptionStatus != Some(Active) && !(row.subscriptionStatus == Some(Trialing) && row.trialEndsAt.Some?) ==>
        !s.isActive && s.daysRemaining == None) &&
      (row.subscriptionStatus == None ==> s.subscriptionStatus == NoSubscription) &&
      s.plan == row.plan && s.trialEndsAt == row.trialEndsAt && s.planExpiresAt == row.planExpiresAt
  {
    if row.subscriptionStatus == Some(Trialing) && row.trialEndsAt.Some? {
      var left := row.trialEndsAt.value - now;
      var d := DaysUntil(row.trialEndsAt.value, now);
      var q := left as real / DayMillis as real;
      assert q * DayMillis as real == left as real;
      assert q <= d as real < q + 1.0;
      assert (d as real) * (DayMillis as real) >= q * DayMillis as real;
      assert ((d - 1) as real) * (DayMillis as real) < q * DayMillis as real;
    }
  }

  /** The hook's `subscription` and `loading` state. */
  class SubscriptionState {
    var subscription: Option<Subscription>
    var loading: bool

    constructor()
      ensures subscription == None && loading
    {
      subscription := None;
      loading := true;
    }

    /**
     * `fetchSubscription`: without a user nothing happens; otherwise the
     * record is derived from the row, or is the fallback when the query
     * failed, and loading ends.
     */
    method FetchSubscription(user: Option<string>, response: Result<BillingRow, Thrown>, now: int)
      modifies this
      ensures user.None? ==> subscription == old(subscription) && loading == old(loading)
      ensures user.Some? && response.Ok? ==> subscription == Some(Derived(response.value, now)) && !loading
      ensures user.Some? && response.Err? ==> subscription == Some(Fallback) && !loading
    {
      if user.None? {
        return;
      }
      match response {
        case Err(_) =>
          subscription := Some(Fallback);
        case Ok(data) =>
          var isActive := false;
          var daysRemaining: Option<int> := None;
          if data.subscriptionStatus == Some(Active) {
            isActive := true;
          } else if data.subscriptionStatus == Some(Trialing) && data.trialEndsAt.Some? {
            isActive := data.trialEndsAt.value > now;
            daysRemaining := Some(DaysUntil(data.trialEndsAt.value, now));
          }
          subscription := Some(Subscription(data.plan, data.subscriptionStatus.GetOr(NoSubscription),
                                            data.trialEndsAt, data.planExpiresAt, isActive, daysRemaining));
      }
      loading := false;
    }

    /** The effect run when the user changes: signing out clears the record, signing in fetches it. */
    method OnUserChange(user: Option<string>, response: Result<BillingRow, Thrown>, now: int)
      modifies this
      ensures user.None? ==> subscription == None && !loading
      ensures user.Some? && response.Ok? ==> subscription == Some(Derived(response.value, now)) && !loading
      ensures user.Some? && response.Err? ==> subscription == Some(Fallback) && !loading
    {
      if user.None? {
        subscription := None;
        loading := false;
        return;
      }
      FetchSubscription(user, response, now);
    }

    /** `hasActiveSubscription`: the record exists and is active. */
    predicate HasActiveSubscription()
      reads this
    {
      subscription.Some? && subscription.value.isActive
    }

    /** `needsSubscription`: the record exists and has no subscription. */
    predicate NeedsSubscription()
      reads this
    {
      subscription.Some? && subscription.value.subscriptionStatus == NoSubscription
    }
  }

  /**
   * After a failed query the user needs a subscription and has none active.
   * After a query, a subscription is needed exactly when the row's status is
   * missing or 'none'; an active status gives an active subscription; a
   * canceled or past-due row answers no to both questions. Without a record
   * both answers are no.
   */
  lemma {:induction false} QuestionsAfterFetch(st: SubscriptionState, row: BillingRow, now: int)
    ensures st.subscription == Some(Fallback) ==> st.NeedsSubscription() && !st.HasActiveSubscription()
    ensures st.subscription == Some(Derived(row, now)) && row.subscriptionStatus == Some(Active) ==>
      st.HasActiveSubscription() && !st.NeedsSubscription()
    ensures st.subscription == Some(Derived(row, now)) && row.subscriptionStatus == None ==>
      st.NeedsSubscription() && !st.HasActiveSubscription()
    ensures st.subscription == Some(Derived(row, now)) ==>
      (st.NeedsSubscription() <==> row.subscriptionStatus == None || row.subscriptionStatus == Some(NoSubscription))
    ensures st.subscription == Some(Derived(row, now)) &&
            (row.subscriptionStatus == Some(Canceled) || row.subscriptionStatus == Some(PastDue)) ==>
      !st.HasActiveSubscription() && !st.NeedsSubscription()
    ensures st.subscription == None ==> !st.HasActiveSubscription() && !st.NeedsSubscription()
  {
  }
}
