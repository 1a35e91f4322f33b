/**
 * The Stripe webhook route (src/app/api/stripe/webhooks/route.ts): it checks that the
 * processor is configured and that the request is signed, then reconciles the user's
 * subscription sub-record with the event. Each event is first decided into at most one
 * `updateSubscription` write (`EventAction`), which is then applied to the store.
 */
module StripeWebhooks {
  import opened Wrappers
  import opened Database

  /** A Stripe subscription object as the handlers read it; `currentPeriodEnd` is
      in seconds since the epoch. */
  datatype StripeSubscription = StripeSubscription(id: string, status: string, customer: string, currentPeriodEnd: int)

  /** A completed Checkout session: its metadata (absent or a string map), its customer id
      and the id of the subscription it created, if any. */
  datatype CheckoutSession = CheckoutSession(
    metadata: Option<map<string, string>>,
    customer: string,
    subscription: Option<string>)

  /** What `stripe.customers.retrieve` returns: a deleted customer or a live one. */
  datatype Customer = DeletedCustomer | LiveCustomer(metadata: map<string, string>)

  /** The answers of the processor's retrieve calls; an id missing from a map is a call
      that throws. */
  datatype Lookups = Lookups(subscriptions: map<string, StripeSubscription>, customers: map<string, Customer>)

  /** A verified event, by type; the invoice events carry the invoice id. */
  datatype Event =
    | CheckoutSessionCompleted(session: CheckoutSession)
    | SubscriptionUpdated(subscription: StripeSubscription)
    | SubscriptionDeleted(subscription: StripeSubscription)
    | InvoicePaymentSucceeded(invoice: string)
    | InvoicePaymentFailed(invoice: string)
    | Unhandled(kind: string)

  /** What a handler does: write one sub-record, return without writing, or throw
      because a retrieve call failed. */
  datatype Action = Write(uid: string, subscription: Subscription) | NoWrite | StripeFailed

  /** The route's responses. */
  datatype Response =
    | Disabled            // processor or webhook secret not configured
    | MissingSignature
    | InvalidSignature
    | Received
    | ProcessingFailed

  function StatusCode(r: Response): (code: int)
    ensures code == 200 <==> r == Disabled || r == Received
    ensures code == 400 <==> r == MissingSignature || r == InvalidSignature
    ensures code == 500 <==> r == ProcessingFailed
  {
    match r
    case Disabled => 200
    case MissingSignature => 400
    case InvalidSignature => 400
    case Received => 200
    case ProcessingFailed => 500
  }

  // --------------------------------------------------------------------------
  // Deciding the write

  /** `metadata?.[key]` read as JavaScript truthiness: Some only for a non-empty value. */
  function MetadataValue(metadata: Option<map<string, string>>, key: string): (r: Option<string>)
    ensures r.Some? <==> metadata.Some? && key in metadata.value && metadata.value[key] != ""
    ensures r.Some? ==> r.value == metadata.value[key]
  {
    if metadata.Some? && key in metadata.value && metadata.value[key] != "" then Some(metadata.value[key])
    else None
  }

  /** The processor's subscription status mapped to the plan status. */
  function MapStatus(status: string): (r: PlanStatus)
    ensures r == Active <==> status == "active" || status == "trialing"
    ensures r == Cancelled <==> status == "canceled" || status == "unpaid"
    ensures r == Expired <==> status != "active" && status != "trialing" && status != "canceled" && status != "unpaid"
  {
    match status
    case "active" => Active
    case "trialing" => Active
    case "canceled" => Cancelled
    case "unpaid" => Cancelled
    case "past_due" => Expired
    case "incomplete" => Expired
    case "incomplete_expired" => Expired
    case _ => Expired
  }

  /** The plan written with a status: premium exactly when active. */
  function PlanFor(status: PlanStatus): (plan: string)
    ensures plan == "premium" <==> status == Active
    ensures plan == "free" <==> status != Active
  {
    if status == Active then "premium" else "free"
  }

  /** `current_period_end * 1000`: the period end in milliseconds. */
  function PeriodEndMillis(sub: StripeSubscription): int {
    sub.currentPeriodEnd * 1000
  }

  /** `handleCheckoutCompleted`. */
  function CheckoutAction(session: CheckoutSession, lookups: Lookups): Action {
    var uid := MetadataValue(session.metadata, "firebaseUid");
    var planId := MetadataValue(session.metadata, "planId");
    if uid.None? || planId.None? then NoWrite
    else if session.subscription.None? || session.subscription.value !in lookups.subscriptions then StripeFailed
    else
      var sub := lookups.subscriptions[session.subscription.value];
      Write(uid.value, Subscription(planId.value, Active, Some(PeriodEndMillis(sub)), Some(session.customer), Some(sub.id)))
  }

  /** The customer's `firebaseUid` for the two subscription handlers: StripeFailed when the
      retrieve throws, None when the customer is deleted or carries no uid. */
  function CustomerUid(customer: string, lookups: Lookups): Option<Option<string>> {
    if customer !in lookups.customers then None
    else match lookups.customers[customer]
      case DeletedCustomer => Some(None)
      case LiveCustomer(metadata) => Some(MetadataValue(Some(metadata), "firebaseUid"))
  }

  /** `handleSubscriptionUpdated`. */
  function UpdatedAction(sub: StripeSubscription, lookups: Lookups): Action {
    var uid := CustomerUid(sub.customer, lookups);
    if uid.None? then StripeFailed
    else if uid.value.None? then NoWrite
    else
      var status := MapStatus(sub.status);
      Write(uid.value.value, Subscription(PlanFor(status), status, Some(PeriodEndMillis(sub)), Some(sub.customer), Some(sub.id)))
  }

  /** `handleSubscriptionDeleted`. */
  function DeletedAction(sub: StripeSubscription, lookups: Lookups): Action {
    var uid := CustomerUid(sub.customer, lookups);
    if uid.None? then StripeFailed
    else if uid.value.None? then NoWrite
    else Write(uid.value.value, Subscription("free", Cancelled, None, Some(sub.customer), Some(sub.id)))
  }

  /** The switch over the event type. */
  function EventAction(e: Event, lookups: Lookups): Action {
    match e
    case CheckoutSessionCompleted(session) => CheckoutAction(session, lookups)
    case SubscriptionUpdated(sub) => UpdatedAction(sub, lookups)
    case SubscriptionDeleted(sub) => DeletedAction(sub, lookups)
    case InvoicePaymentSucceeded(_) => NoWrite
    case InvoicePaymentFailed(_) => NoWrite
    case Unhandled(_) => NoWrite
  }

  // --------------------------------------------------------------------------
  // Applying it

  /** The response and the `users` collection after an action: a write to a missing
      document fails and is answered 500, as is a failed retrieve. */
  function ApplyAction(users: Collection, a: Action, now: int): (Response, Collection) {
    match a
    case NoWrite => (Received, users)
    case StripeFailed => (ProcessingFailed, users)
    case Write(uid, sub) =>
      if uid in users then (Received, users[uid := SubscriptionWrite(users[uid], SubscriptionJson(sub), now)])
      else (ProcessingFailed, users)
  }

  /** The whole route: `signature` is the `stripe-signature` header and `event` what
      `constructEvent` gives for the body, the header and the secret (None: it throws). */
  function Webhook(configured: bool, signature: Option<string>, event: Option<Event>, lookups: Lookups,
                   users: Collection, now: int): (Response, Collection)
  {
    if !configured then (Disabled, users)
    else if signature.None? || signature.value == "" then (MissingSignature, users)
    else if event.None? then (InvalidSignature, users)
    else ApplyAction(users, EventAction(event.value, lookups), now)
  }

  /** `POST` on the webhook route, against the store. */
  method HandleWebhook(db: Firestore, configured: bool, signature: Option<string>, event: Option<Event>,
                       lookups: Lookups, now: int) returns (response: Response)
    modifies db
    ensures (response, db.users) == Webhook(configured, signature, event, lookups, old(db.users), now)
    ensures db.qrCodes == old(db.qrCodes)
  {
    if !configured {
      return Disabled;
    }
    if signature.None? || signature.value == "" {
      return MissingSignature;
    }
    if event.None? {
      return InvalidSignature;
    }
    var action := EventAction(event.value, lookups);
    match action {
      case NoWrite =>
        response := Received;
      case StripeFailed =>
        response := ProcessingFailed;
      case Write(uid, sub) =>
        var outcome := db.UpdateSubscription(uid, SubscriptionJson(sub), now);
        response := if outcome == Done then Received else ProcessingFailed;
    }
  }

  // --------------------------------------------------------------------------
  // Properties

  /** Requests that are not configured, not signed or not verified change nothing. */
  lemma RejectedRequestsChangeNothing(configured: bool, signature: Option<string>, event: Option<Event>,
                                      lookups: Lookups, users: Collection, now: int)
    requires !configured || signature.None? || signature == Some("") || event.None?
    ensures Webhook(configured, signature, event, lookups, users, now).1 == users
    ensures StatusCode(Webhook(configured, signature, event, lookups, users, now).0) in {200, 400}
  {
  }

  /** Invoice events and event types the switch does not handle are acknowledged and change
      nothing. */
  lemma LoggedEventsChangeNothing(e: Event, lookups: Lookups, users: Collection, now: int)
    requires e.InvoicePaymentSucceeded? || e.InvoicePaymentFailed? || e.Unhandled?
    ensures ApplyAction(users, EventAction(e, lookups), now) == (Received, users)
  {
  }

  /** Only the sub-record and `updatedAt` of the one user an action names can change: every
      other document, and every other field of that one, is left as it was. */
  lemma ActionTouchesOneRecord(users: Collection, a: Action, now: int)
    ensures var after := ApplyAction(users, a, now).1;
      && after.Keys == users.Keys
      && (forall uid :: uid in users && !(a.Write? && a.uid == uid) ==> after[uid] == users[uid])
      && (forall uid, k :: uid in users && k in users[uid] && k != "subscription" && k != "updatedAt"
            ==> k in after[uid] && after[uid][k] == users[uid][k])
  {
  }

  /** The same for a whole event. */
  lemma WebhookTouchesOneRecord(e: Event, lookups: Lookups, users: Collection, now: int)
    ensures var after := ApplyAction(users, EventAction(e, lookups), now).1;
      && after.Keys == users.Keys
      && (forall uid :: uid in users && !(EventAction(e, lookups).Write? && EventAction(e, lookups).uid == uid)
            ==> after[uid] == users[uid])
      && (forall uid, k :: uid in users && k in users[uid] && k != "subscription" && k != "updatedAt"
            ==> k in after[uid] && after[uid][k] == users[uid][k])
  {
    ActionTouchesOneRecord(users, EventAction(e, lookups), now);
  }

  /** A written sub-record reads back as exactly the decided subscription, whatever the
      document held before: the write replaces the record as a whole. */
  lemma WrittenRecordReadsBack(e: Event, lookups: Lookups, users: Collection, now: int)
    requires EventAction(e, lookups).Write? && EventAction(e, lookups).uid in users
    ensures var a := EventAction(e, lookups);
      var (response, after) := ApplyAction(users, a, now);
      && response == Received
      && a.uid in after && "subscription" in after[a.uid]
      && ParseSubscription(after[a.uid]["subscription"]) == Some(a.subscription)
  {
    SubscriptionRoundTrip(EventAction(e, lookups).subscription);
  }

  /** Applying the same action twice at the same instant leaves the store as applying it
      once. */
  lemma ActionIsIdempotent(users: Collection, a: Action, now: int)
    ensures var (r1, once) := ApplyAction(users, a, now);
      ApplyAction(once, a, now) == (r1, once)
  {
    if a.Write? && a.uid in users {
      var w := SubscriptionWrite(users[a.uid], SubscriptionJson(a.subscription), now);
      assert SubscriptionWrite(w, SubscriptionJson(a.subscription), now) == w;
      assert users[a.uid := w][a.uid := w] == users[a.uid := w];
    }
  }

  /** Delivering the same event twice at the same instant leaves the store as delivering it
      once: the action depends only on the event and the processor's answers. */
  lemma ReplayIsIdempotent(e: Event, lookups: Lookups, users: Collection, now: int)
    ensures var (r1, once) := ApplyAction(users, EventAction(e, lookups), now);
      ApplyAction(once, EventAction(e, lookups), now) == (r1, once)
  {
    ActionIsIdempotent(users, EventAction(e, lookups), now);
  }

  /** Applying an action again later gives the same response and changes only the
      written profile's `updatedAt`: its sub-record and every other field and document stay
      as the first application left them. */
  lemma ActionRedelivered(users: Collection, a: Action, now: int, later: int)
    ensures var (r1, once) := ApplyAction(users, a, now);
      var (r2, twice) := ApplyAction(once, a, later);
      && r2 == r1
      && twice == if a.Write? && a.uid in users then once[a.uid := once[a.uid]["updatedAt" := Time(later)]] else once
  {
    if a.Write? && a.uid in users {
      var j := SubscriptionJson(a.subscription);
      var w := SubscriptionWrite(users[a.uid], j, now);
      assert SubscriptionWrite(w, j, later) == w["updatedAt" := Time(later)];
    }
  }

  /** The same for a redelivered event: a later delivery moves only `updatedAt`. */
  lemma ReplayMovesOnlyUpdatedAt(e: Event, lookups: Lookups, users: Collection, now: int, later: int)
    ensures var a := EventAction(e, lookups);
      var (r1, once) := ApplyAction(users, a, now);
      var (r2, twice) := ApplyAction(once, a, later);
      && r2 == r1
      && twice == if a.Write? && a.uid in users then once[a.uid := once[a.uid]["updatedAt" := Time(later)]] else once
  {
    ActionRedelivered(users, EventAction(e, lookups), now, later);
  }

  /** A deleted subscription leaves the user on the free plan, cancelled, with no period
      end: the update replaces the record, so an earlier period end is dropped. */
  lemma DeletionClearsPeriodEnd(sub: StripeSubscription, lookups: Lookups, users: Collection, now: int)
    requires DeletedAction(sub, lookups).Write? && DeletedAction(sub, lookups).uid in users
    ensures var uid := DeletedAction(sub, lookups).uid;
      var after := ApplyAction(users, DeletedAction(sub, lookups), now).1;
      && after[uid]["subscription"].Obj?
      && "currentPeriodEnd" !in after[uid]["subscription"].fields
      && ParseSubscription(after[uid]["subscription"])
         == Some(Subscription("free", Cancelled, None, Some(sub.customer), Some(sub.id)))
  {
    SubscriptionRoundTrip(Subscription("free", Cancelled, None, Some(sub.customer), Some(sub.id)));
  }

  /** A checkout writes the plan identifier from the session metadata verbatim, active,
      with the period end in milliseconds. */
  lemma CheckoutWritesMetadataPlan(session: CheckoutSession, lookups: Lookups)
    requires CheckoutAction(session, lookups).Write?
    ensures var a := CheckoutAction(session, lookups);
      && session.metadata.Some?
      && a.uid == session.metadata.value["firebaseUid"]
      && a.subscription.plan == session.metadata.value["planId"]
      && a.subscription.status == Active
      && session.subscription.Some? && session.subscription.value in lookups.subscriptions
      && a.subscription.currentPeriodEnd
         == Some(lookups.subscriptions[session.subscription.value].currentPeriodEnd * 1000)
  {
  }

  /** The worked example: a checkout for `u1` on plan `premium` with subscription `sub_1`. */
  lemma CheckoutExample()
    ensures var session := CheckoutSession(Some(map["firebaseUid" := "u1", "planId" := "premium"]), "cus_1", Some("sub_1"));
      var lookups := Lookups(map["sub_1" := StripeSubscription("sub_1", "active", "cus_1", 1700000000)], map[]);
      EventAction(CheckoutSessionCompleted(session), lookups)
      == Write("u1", Subscription("premium", Active, Some(1700000000000), Some("cus_1"), Some("sub_1")))
  {
  }

  /** A checkout without both metadata values writes nothing and is still acknowledged. */
  lemma CheckoutWithoutMetadataIsIgnored(session: CheckoutSession, lookups: Lookups, users: Collection, now: int)
    requires MetadataValue(session.metadata, "firebaseUid").None? || MetadataValue(session.metadata, "planId").None?
    ensures ApplyAction(users, CheckoutAction(session, lookups), now) == (Received, users)
  {
  }

  /** A subscription update writes premium and active exactly when the processor's status is
      active or trialing, and free otherwise, with the period end in milliseconds. */
  lemma UpdatePlanFollowsStatus(sub: StripeSubscription, lookups: Lookups)
    requires UpdatedAction(sub, lookups).Write?
    ensures var w := UpdatedAction(sub, lookups).subscription;
      && (w.plan == "premium" <==> sub.status == "active" || sub.status == "trialing")
      && (w.status == Active <==> w.plan == "premium")
      && w.stripeSubscriptionId == Some(sub.id) && w.stripeCustomerId == Some(sub.customer)
      && w.currentPeriodEnd == Some(sub.currentPeriodEnd * 1000)
  {
  }

  /** The two subscription handlers throw when the customer cannot be retrieved, write
      nothing for a deleted customer or a live one without a truthy `firebaseUid`, and
      otherwise write for exactly that uid. */
  lemma SubscriptionHandlersNeedCustomerUid(sub: StripeSubscription, lookups: Lookups)
    ensures sub.customer !in lookups.customers
      ==> UpdatedAction(sub, lookups) == StripeFailed && DeletedAction(sub, lookups) == StripeFailed
    ensures sub.customer in lookups.customers && lookups.customers[sub.customer].DeletedCustomer?
      ==> UpdatedAction(sub, lookups) == NoWrite && DeletedAction(sub, lookups) == NoWrite
    ensures sub.customer in lookups.customers && lookups.customers[sub.customer].LiveCustomer?
      && MetadataValue(Some(lookups.customers[sub.customer].metadata), "firebaseUid").None?
      ==> UpdatedAction(sub, lookups) == NoWrite && DeletedAction(sub, lookups) == NoWrite
    ensures UpdatedAction(sub, lookups).Write? <==> DeletedAction(sub, lookups).Write?
    ensures UpdatedAction(sub, lookups).Write? ==>
      && sub.customer in lookups.customers && lookups.customers[sub.customer].LiveCustomer?
      && UpdatedAction(sub, lookups).uid == lookups.customers[sub.customer].metadata["firebaseUid"]
      && UpdatedAction(sub, lookups).uid != ""
    ensures DeletedAction(sub, lookups).Write? ==>
      && sub.customer in lookups.customers && lookups.customers[sub.customer].LiveCustomer?
      && DeletedAction(sub, lookups).uid == lookups.customers[sub.customer].metadata["firebaseUid"]
      && DeletedAction(sub, lookups).uid != ""
  {
  }

  /** A past-due subscription update moves the user to the free plan, expired. */
  lemma PastDueExpires(sub: StripeSubscription, lookups: Lookups)
    requires sub.status == "past_due" && UpdatedAction(sub, lookups).Write?
    ensures UpdatedAction(sub, lookups).subscription.plan == "free"
    ensures UpdatedAction(sub, lookups).subscription.status == Expired
  {
  }
}
