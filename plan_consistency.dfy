/**
 * How the plan a checkout writes meets the plan the pricing cards look for. The checkout
 * route tags each session with the plan key it was asked for ("PREMIUM_MONTHLY" or
 * "PREMIUM_YEARLY"), the webhook's checkout handler stores that key verbatim as the
 * profile's `plan`, and the pricing cards (src/components/pricing-cards.tsx) mark the
 * premium card current only for the plan "premium", which the webhook's update handler
 * writes.
 */
module PlanConsistency {
  import opened Wrappers
  import opened Database
  import CheckoutRoute
  import StripeWebhooks
  import Requests

  /** `userProfile?.subscription?.plan || "free"`: the plan the pricing cards show. */
  function CurrentPlan(sub: Subscription): string {
    if sub.plan != "" then sub.plan else "free"
  }

  /** `currentPlan === "premium"`: the premium card's "Current Plan" badge. */
  predicate ShowsPremium(sub: Subscription) {
    CurrentPlan(sub) == "premium"
  }

  /** A completed checkout of a session the route created for `uid` writes that user's
      profile (when the processor returns the subscription) with the plan key the session
      was created for, never "premium", so the pricing cards do not show the premium plan
      as current after a purchase. */
  lemma CheckedOutPlanIsPlanKey(configured: bool, body: Option<Json>, origin: Option<string>,
                                customerReply: Option<string>, sessionReply: Option<string>,
                                users: Collection, now: int, i: int,
                                customer: string, subscriptionId: string, lookups: StripeWebhooks.Lookups)
    requires 0 <= i < |CheckoutRoute.Checkout(configured, body, origin, customerReply, sessionReply, users, now).calls|
    requires CheckoutRoute.Checkout(configured, body, origin, customerReply, sessionReply, users, now).calls[i].CreateSession?
    ensures var session := CheckoutRoute.Checkout(configured, body, origin, customerReply, sessionReply, users, now).calls[i].params;
      var completed := StripeWebhooks.CheckoutSession(Some(session.metadata), customer, Some(subscriptionId));
      var action := StripeWebhooks.EventAction(StripeWebhooks.CheckoutSessionCompleted(completed), lookups);
      && (subscriptionId in lookups.subscriptions <==> action.Write?)
      && (action.Write? ==>
            && action.uid == session.metadata["firebaseUid"]
            && (action.subscription.plan == "PREMIUM_MONTHLY" || action.subscription.plan == "PREMIUM_YEARLY")
            && action.subscription.plan == session.metadata["planId"]
            && !ShowsPremium(action.subscription))
  {
    CheckoutRoute.SessionParameters(configured, body, origin, customerReply, sessionReply, users, now, i);
    CheckoutRoute.ReachesPurchase(configured, body, origin, customerReply, sessionReply, users, now);
    var session := CheckoutRoute.Checkout(configured, body, origin, customerReply, sessionReply, users, now).calls[i].params;
    TaggedCheckoutWritesKey(Requests.Field(body.value, "userId").s, Requests.Field(body.value, "planId").s,
                            session.metadata, customer, subscriptionId, lookups);
  }

  /** The webhook side: a completed session tagged with a user and a premium plan key. */
  lemma TaggedCheckoutWritesKey(uid: string, planKey: string, metadata: map<string, string>,
                                customer: string, subscriptionId: string, lookups: StripeWebhooks.Lookups)
    requires metadata == map["firebaseUid" := uid, "planId" := planKey]
    requires uid != ""
    requires planKey == "PREMIUM_MONTHLY" || planKey == "PREMIUM_YEARLY"
    ensures var completed := StripeWebhooks.CheckoutSession(Some(metadata), customer, Some(subscriptionId));
      var action := StripeWebhooks.EventAction(StripeWebhooks.CheckoutSessionCompleted(completed), lookups);
      && (subscriptionId in lookups.subscriptions <==> action.Write?)
      && (action.Write? ==>
            && action.uid == uid && action.subscription.plan == planKey
            && !ShowsPremium(action.subscription))
  {
    assert "firebaseUid" != "planId";
  }

  /** The update handler, by contrast, writes "premium" for an active subscription, and
      that is the one plan the premium card shows as current. */
  lemma ActiveUpdateShowsPremium(sub: StripeWebhooks.StripeSubscription, lookups: StripeWebhooks.Lookups)
    requires sub.status == "active"
    ensures var action := StripeWebhooks.EventAction(StripeWebhooks.SubscriptionUpdated(sub), lookups);
      action.Write? ==> ShowsPremium(action.subscription)
  {
    if StripeWebhooks.UpdatedAction(sub, lookups).Write? {
      StripeWebhooks.UpdatePlanFollowsStatus(sub, lookups);
    }
  }
}
