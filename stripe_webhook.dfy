/**
 * The Stripe webhook of the hosted edition
 * (supabase/functions/stripe-webhook/index.ts): how each billing event
 * becomes an update of the user's profile row, and the HTTP status the
 * function answers with. Signature checking, the subscription lookup at
 * Stripe and the profile lookup by customer are outcomes passed in; Stripe
 * timestamps are seconds and profile timestamps milliseconds.
 */
module StripeWebhook {
  import opened Wrappers
  import opened HostedTypes
  import Subscription

  /** A Stripe subscription object: its id, status text, trial end and period end (seconds). */
  datatype StripeSubscription = StripeSubscription(
    id: string,
    status: string,
    trialEnd: Option<int>,
    currentPeriodEnd: int,
    customer: string)

  /** The events the function reads, by `event.type`; any other type is `Unhandled`. */
  datatype Event =
    | CheckoutSessionCompleted(userId: Option<string>, subscriptionId: Option<string>)
    | SubscriptionUpdated(subscription: StripeSubscription)
    | SubscriptionDeleted(customerId: string)
    | InvoicePaymentFailed(customerId: string)
    | Unhandled(eventType: string)

  /** One `update(...).eq('id', userId)` on `profiles`. */
  datatype ProfileWrite = ProfileWrite(userId: string, update: ProfileRowUpdate)

  /** What the response says. */
  datatype Body = NoSignature | Received | ErrorMessage(message: string)

  datatype Response = Response(status: int, body: Body)

  /** A JavaScript string that is present and not empty. */
  predicate Truthy(s: Option<string>) {
    s.Some? && s.value != ""
  }

  /** `trial_end ? new Date(trial_end * 1000) : null`, in milliseconds. */
  function TrialEndMillis(trialEnd: Option<int>): (r: Option<int>)
    ensures r.None? <==> trialEnd.None? || trialEnd.value == 0
    ensures r.Some? ==> r.value == trialEnd.value * 1000
  {
    if trialEnd.Some? && trialEnd.value != 0 then Some(trialEnd.value * 1000) else None
  }

  /** The status column for a Stripe status on `customer.subscription.updated`. */
  function MapStatus(stripeStatus: string): (r: SubscriptionStatus)
    ensures r == NoSubscription <==>
      stripeStatus !in {"trialing", "active", "canceled", "past_due"}
  {
    if stripeStatus == "trialing" then Trialing
    else if stripeStatus == "active" then Active
    else if stripeStatus == "canceled" then Canceled
    else if stripeStatus == "past_due" then PastDue
    else NoSubscription
  }

  /** The paying statuses: the plan is premium exactly for these. */
  predicate Paying(stripeStatus: string) {
    stripeStatus == "active" || stripeStatus == "trialing"
  }

  /** The update after a completed checkout: premium, trialing or active, with the subscription's dates. */
  function CheckoutUpdate(sub: StripeSubscription): ProfileRowUpdate {
    NoRowChange.(
      stripeSubscriptionId := Some(Some(sub.id)),
      subscriptionStatus := Some(Some(if sub.status == "trialing" then Trialing else Active)),
      plan := Some(Premium),
      trialEndsAt := Some(TrialEndMillis(sub.trialEnd)),
      planExpiresAt := Some(Some(sub.currentPeriodEnd * 1000)))
  }

  /** The update after a subscription change. */
  function StatusUpdate(sub: StripeSubscription, status: SubscriptionStatus): ProfileRowUpdate {
    NoRowChange.(
      subscriptionStatus := Some(Some(status)),
      plan := Some(if Paying(sub.status) then Premium else Free),
      trialEndsAt := Some(TrialEndMillis(sub.trialEnd)),
      planExpiresAt := Some(Some(sub.currentPeriodEnd * 1000)))
  }

  /** The update after a deleted subscription: canceled, free and with no subscription id. */
  const DeletedUpdate := NoRowChange.(
    subscriptionStatus := Some(Some(Canceled)),
    plan := Some(Free),
    stripeSubscriptionId := Some(None))

  /** The update after a failed payment: the status only. */
  const PaymentFailedUpdate := NoRowChange.(subscriptionStatus := Some(Some(PastDue)))

  /**
   * The request handler. `signature` is the `stripe-signature` header;
   * `event` is what `constructEvent` gives or the message it throws;
   * `retrieved` is the subscription fetched after a checkout, or the message
   * that call throws; `profileId` is the profile found for the event's
   * customer, if any. The result is the response and the writes issued, in
   * order.
   */
  method Handle(signature: Option<string>, event: Result<Event, string>,
                retrieved: Result<StripeSubscription, string>, profileId: Option<string>)
    returns (response: Response, writes: seq<ProfileWrite>)
    ensures !Truthy(signature) ==> response == Response(400, NoSignature) && writes == []
    ensures Truthy(signature) && event.Err? ==> response == Response(400, ErrorMessage(event.error)) && writes == []
    ensures Truthy(signature) && event.Ok? ==> writes == Writes(event.value, retrieved, profileId)
    ensures Truthy(signature) && event.Ok? ==>
      response == (if event.value.CheckoutSessionCompleted? && Truthy(event.value.userId) &&
                      Truthy(event.value.subscriptionId) && retrieved.Err?
                   then Response(400, ErrorMessage(retrieved.error))
                   else Response(200, Received))
  {
    if !Truthy(signature) {
      return Response(400, NoSignature), [];
    }
    if event.Err? {
      return Response(400, ErrorMessage(event.error)), [];
    }
    writes := [];
    match event.value {
      case CheckoutSessionCompleted(userId, subscriptionId) =>
        if Truthy(userId) && Truthy(subscriptionId) {
          if retrieved.Err? {
            return Response(400, ErrorMessage(retrieved.error)), [];
          }
          writes := writes + [ProfileWrite(userId.value, CheckoutUpdate(retrieved.value))];
        }
      case SubscriptionUpdated(sub) =>
        if profileId.Some? {
          var subscriptionStatus := NoSubscription;
          if sub.status == "trialing" {
            subscriptionStatus := Trialing;
          } else if sub.status == "active" {
            subscriptionStatus := Active;
          } else if sub.status == "canceled" {
            subscriptionStatus := Canceled;
          } else if sub.status == "past_due" {
            subscriptionStatus := PastDue;
          }
          writes := writes + [ProfileWrite(profileId.value, StatusUpdate(sub, subscriptionStatus))];
        }
      case SubscriptionDeleted(_) =>
        if profileId.Some? {
          writes := writes + [ProfileWrite(profileId.value, DeletedUpdate)];
        }
      case InvoicePaymentFailed(_) =>
        if profileId.Some? {
          writes := writes + [ProfileWrite(profileId.value, PaymentFailedUpdate)];
        }
      case Unhandled(_) =>
    }
    response := Response(200, Received);
  }

  /** The writes an accepted event leads to: at most one, and none for an unhandled type. */
  function Writes(e: Event, retrieved: Result<StripeSubscription, string>, profileId: Option<string>): (r: seq<ProfileWrite>)
    ensures |r| <= 1
    ensures e.Unhandled? ==> r == []
    ensures !e.CheckoutSessionCompleted? ==> (r != [] <==> profileId.Some? && !e.Unhandled?)
    ensures e.CheckoutSessionCompleted? ==>
      (r != [] <==> Truthy(e.userId) && Truthy(e.subscriptionId) && retrieved.Ok?)
    ensures r != [] && e.CheckoutSessionCompleted? ==> r[0].userId == e.userId.value
    ensures r != [] && !e.CheckoutSessionCompleted? ==> r[0].userId == profileId.value
  {
    match e
    case CheckoutSessionCompleted(userId, subscriptionId) =>
      if Truthy(userId) && Truthy(subscriptionId) && retrieved.Ok?
      then [ProfileWrite(userId.value, CheckoutUpdate(retrieved.value))] else []
    case SubscriptionUpdated(sub) =>
      if profileId.Some? then [ProfileWrite(profileId.value, StatusUpdate(sub, MapStatus(sub.status)))] else []
    case SubscriptionDeleted(_) =>
      if profileId.Some? then [ProfileWrite(profileId.value, DeletedUpdate)] else []
    case InvoicePaymentFailed(_) =>
      if profileId.Some? then [ProfileWrite(profileId.value, PaymentFailedUpdate)] else []
    case Unhandled(_) => []
  }

  /**
   * A completed checkout makes the profile premium, trialing exactly when
   * Stripe says so and active otherwise, with the subscription's id and
   * dates; every other column is kept.
   */
  lemma {:induction false} CheckoutEffect(row: ProfileRow, sub: StripeSubscription)
    ensures var r := MergeProfileRow(row, CheckoutUpdate(sub));
      r.plan == Premium &&
      r.subscriptionStatus == Some(if sub.status == "trialing" then Trialing else Active) &&
      r.stripeSubscriptionId == Some(sub.id) &&
      r.trialEndsAt == TrialEndMillis(sub.trialEnd) &&
      r.planExpiresAt == Some(sub.currentPeriodEnd * 1000) &&
      r.(plan := row.plan, subscriptionStatus := row.subscriptionStatus, stripeSubscriptionId := row.stripeSubscriptionId,
         trialEndsAt := row.trialEndsAt, planExpiresAt := row.planExpiresAt) == row
  {
  }

  /**
   * A subscription change passes the four known statuses through and maps
   * any other to none; the plan is premium exactly for active and trialing
   * subscriptions, so a premium plan always comes with an active or
   * trialing status.
   */
  lemma {:induction false} UpdatedEffect(row: ProfileRow, sub: StripeSubscription)
    ensures var r := MergeProfileRow(row, StatusUpdate(sub, MapStatus(sub.status)));
      (sub.status == "trialing" ==> r.subscriptionStatus == Some(Trialing)) &&
      (sub.status == "active" ==> r.subscriptionStatus == Some(Active)) &&
      (sub.status == "canceled" ==> r.subscriptionStatus == Some(Canceled)) &&
      (sub.status == "past_due" ==> r.subscriptionStatus == Some(PastDue)) &&
      (r.plan == Premium <==> Paying(sub.status)) &&
      (r.plan == Premium <==> r.subscriptionStatus == Some(Active) || r.subscriptionStatus == Some(Trialing)) &&
      r.trialEndsAt == TrialEndMillis(sub.trialEnd) &&
      r.stripeSubscriptionId == row.stripeSubscriptionId && r.stripeCustomerId == row.stripeCustomerId
  {
  }

  /**
   * After a subscription change to `active` the subscription hook sees an
   * active subscription with no countdown, at any time.
   */
  lemma {:induction false} UpdatedActiveIsActive(row: ProfileRow, sub: StripeSubscription, now: int)
    requires sub.status == "active"
    ensures var r := MergeProfileRow(row, StatusUpdate(sub, MapStatus(sub.status)));
      var s := Subscription.Derived(Subscription.BillingRow(r.plan, r.subscriptionStatus, r.trialEndsAt, r.planExpiresAt), now);
      s.isActive && s.daysRemaining == None && s.plan == Premium
  {
  }

  /**
   * A deleted subscription leaves a canceled free profile without a
   * subscription id; a failed payment changes the status only, so the plan
   * is kept. Nothing else changes in either case.
   */
  lemma {:induction false} DeletedAndFailedEffects(row: ProfileRow)
    ensures var r := MergeProfileRow(row, DeletedUpdate);
      r.subscriptionStatus == Some(Canceled) && r.plan == Free && r.stripeSubscriptionId == None &&
      r.(subscriptionStatus := row.subscriptionStatus, plan := row.plan, stripeSubscriptionId := row.stripeSubscriptionId) == row
    ensures var r := MergeProfileRow(row, PaymentFailedUpdate);
      r.subscriptionStatus == Some(PastDue) && r.plan == row.plan &&
      r.(subscriptionStatus := row.subscriptionStatus) == row
  {
  }
}
