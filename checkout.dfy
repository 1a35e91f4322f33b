/**
 * The checkout-session route (src/app/api/stripe/create-checkout-session/route.ts):
 * request guards, plan validation against the plan table, the one-time assignment of a
 * Stripe customer id to the user's profile, and the parameters of the Checkout Session.
 *
 * The two Stripe calls are inputs: `customerReply` is the id of the customer that
 * `customers.create` returns and `sessionReply` the id of the session that
 * `checkout.sessions.create` returns; None means that call throws.
 */
module CheckoutRoute {
  import opened Wrappers
  import opened Database
  import opened Plans
  import opened Requests

  datatype LineItem = LineItem(price: string, quantity: int)

  /** The argument of `stripe.checkout.sessions.create`. */
  datatype SessionParams = SessionParams(
    customer: Json,
    paymentMethodTypes: seq<string>,
    billingAddressCollection: string,
    lineItems: seq<LineItem>,
    mode: string,
    successUrl: string,
    cancelUrl: string,
    metadata: map<string, string>)

  /** The calls the route makes to Stripe, in order. */
  datatype StripeCall =
    | CreateCustomer(customerMetadata: map<string, string>)
    | CreateSession(params: SessionParams)

  datatype CheckoutResponse =
    | NotConfigured              // 503
    | MissingFields              // 400 "Missing planId or userId"
    | InvalidPlan                // 400 "Invalid plan selected"
    | SessionCreated(sessionId: string)
    | InternalError              // 500, anything thrown

  function StatusCode(r: CheckoutResponse): (code: int)
    ensures code == 200 <==> r.SessionCreated?
    ensures code == 400 <==> r.MissingFields? || r.InvalidPlan?
    ensures code == 503 <==> r.NotConfigured?
    ensures code == 500 <==> r.InternalError?
  {
    match r
    case NotConfigured => 503
    case MissingFields => 400
    case InvalidPlan => 400
    case SessionCreated(_) => 200
    case InternalError => 500
  }

  /** The Stripe price of the plan a request names, when the plan may be bought: the key is
      in `PLANS`, is not `FREE`, and the plan has a non-empty `stripePriceId`. A value that
      is not a string names no plan. */
  function PurchasablePrice(planId: Json): Option<string> {
    if planId.Str? && planId.s in Table && planId.s != "FREE"
       && Table[planId.s].stripePriceId.Some? && Table[planId.s].stripePriceId.value != ""
    then Some(Table[planId.s].stripePriceId.value)
    else None
  }

  /** Only the two premium plans can be bought, each at its own price. */
  lemma PurchasablePlans(planId: Json)
    ensures PurchasablePrice(planId).Some? <==> planId == Str("PREMIUM_MONTHLY") || planId == Str("PREMIUM_YEARLY")
    ensures planId == Str("PREMIUM_MONTHLY") ==> PurchasablePrice(planId) == Some("price_premium_monthly")
    ensures planId == Str("PREMIUM_YEARLY") ==> PurchasablePrice(planId) == Some("price_premium_yearly")
    ensures PurchasablePrice(planId).Some? ==> PurchasablePrice(planId) == Table[planId.s].stripePriceId
  {
    if planId.Str? && planId.s in Table {
      assert planId.s == "FREE" || planId.s == "PREMIUM_MONTHLY" || planId.s == "PREMIUM_YEARLY";
    }
  }

  /** `{...userProfile?.subscription, stripeCustomerId, plan: 'free', status: 'active'}`:
      the prior sub-record's fields, then the three assigned ones over them. */
  function CustomerRecord(profile: Option<Doc>, customerId: string): Json {
    var prior := if profile.Some? && "subscription" in profile.value then FieldsOf(profile.value["subscription"]) else map[];
    Obj(prior["stripeCustomerId" := Str(customerId)]["plan" := Str("free")]["status" := Str("active")])
  }

  /** The session for one unit of `price`, charged to `customer`, tagged with the user and
      the plan key, returning to the subscribe page. */
  function SessionParamsFor(customer: Json, price: string, origin: Option<string>, uid: string, planKey: string): SessionParams {
    SessionParams(
      customer,
      ["card"],
      "required",
      [LineItem(price, 1)],
      "subscription",
      OriginText(origin) + "/subscribe/success?session_id={CHECKOUT_SESSION_ID}",
      OriginText(origin) + "/subscribe?canceled=true",
      map["firebaseUid" := uid, "planId" := planKey])
  }

  datatype CheckoutOutcome = CheckoutOutcome(response: CheckoutResponse, calls: seq<StripeCall>, users: Collection)

  /** The route as one function of its inputs and the `users` collection it reads and
      writes. */
  function Checkout(configured: bool, body: Option<Json>, origin: Option<string>,
                    customerReply: Option<string>, sessionReply: Option<string>,
                    users: Collection, now: int): CheckoutOutcome
  {
    if !configured then CheckoutOutcome(NotConfigured, [], users)
    else if !Destructurable(body) then CheckoutOutcome(InternalError, [], users)
    else Validate(Field(body.value, "planId"), Field(body.value, "userId"), origin, customerReply, sessionReply, users, now)
  }

  /** The field checks, then the plan check. A non-string `userId` that passes them makes
      `doc(db, 'users', userId)` throw. */
  function Validate(planId: Json, userId: Json, origin: Option<string>,
                    customerReply: Option<string>, sessionReply: Option<string>,
                    users: Collection, now: int): CheckoutOutcome
  {
    if !Truthy(planId) || !Truthy(userId) then CheckoutOutcome(MissingFields, [], users)
    else if PurchasablePrice(planId).None? then CheckoutOutcome(InvalidPlan, [], users)
    else if !userId.Str? then CheckoutOutcome(InternalError, [], users)
    else Purchase(userId.s, planId.s, PurchasablePrice(planId).value, origin, customerReply, sessionReply, users, now)
  }

  /** A valid request for `planKey` at `price` by `uid`: make sure the user has a customer
      id, then create the session. Every call but the last creates a customer, and the
      last session call is for this plan and user. */
  function Purchase(uid: string, planKey: string, price: string, origin: Option<string>,
                    customerReply: Option<string>, sessionReply: Option<string>,
                    users: Collection, now: int): (r: CheckoutOutcome)
    ensures r.response.SessionCreated? || r.response.InternalError?
    ensures 1 <= |r.calls| <= 2
    ensures r.calls[0].CreateSession? ==> |r.calls| == 1
    ensures |r.calls| == 2 ==> r.calls[0].CreateCustomer? && r.calls[1].CreateSession?
    ensures r.calls[|r.calls| - 1].CreateSession? ==>
      var p := r.calls[|r.calls| - 1].params;
      p == SessionParamsFor(p.customer, price, origin, uid, planKey)
    ensures r.response.SessionCreated? ==> sessionReply == Some(r.response.sessionId) && r.calls[|r.calls| - 1].CreateSession?
  {
    var c := EnsureCustomer(uid, customerReply, users, now);
    if c.customerId.None? then CheckoutOutcome(InternalError, c.calls, c.users)
    else SessionStep(SessionParamsFor(c.customerId.value, price, origin, uid, planKey), c.calls, sessionReply, c.users)
  }

  /** The customer id to charge, the calls made and the collection afterwards; a None id
      means the step threw. */
  datatype CustomerOutcome = CustomerOutcome(customerId: Option<Json>, calls: seq<StripeCall>, users: Collection)

  /** The stored customer id when there is one; otherwise a new customer tagged with the
      user's id, whose id is then written into the profile. The write fails when the
      profile document does not exist. */
  function EnsureCustomer(uid: string, customerReply: Option<string>, users: Collection, now: int): (c: CustomerOutcome)
    ensures c.calls == [] || c.calls == [CreateCustomer(map["firebaseUid" := uid])]
  {
    var stored := CustomerIdOf(ProfileOf(users, uid));
    if stored.Some? then CustomerOutcome(stored, [], users)
    else
      var create := CreateCustomer(map["firebaseUid" := uid]);
      if customerReply.None? || uid !in users then CustomerOutcome(None, [create], users)
      else
        var record := CustomerRecord(ProfileOf(users, uid), customerReply.value);
        CustomerOutcome(Some(Str(customerReply.value)), [create], users[uid := SubscriptionWrite(users[uid], record, now)])
  }

  /** The last step: create the session and answer with its id. */
  function SessionStep(params: SessionParams, calls: seq<StripeCall>, sessionReply: Option<string>, users: Collection): CheckoutOutcome {
    CheckoutOutcome(if sessionReply.Some? then SessionCreated(sessionReply.value) else InternalError,
                    calls + [CreateSession(params)], users)
  }

  /** `POST`, step by step: the customer id is read from the profile and reassigned once a
      customer has been created for it. */
  method CreateCheckoutSession(db: Firestore, configured: bool, body: Option<Json>, origin: Option<string>,
                               customerReply: Option<string>, sessionReply: Option<string>, now: int)
    returns (response: CheckoutResponse, calls: seq<StripeCall>)
    modifies db
    ensures CheckoutOutcome(response, calls, db.users)
            == Checkout(configured, body, origin, customerReply, sessionReply, old(db.users), now)
    ensures db.qrCodes == old(db.qrCodes)
  {
    calls := [];
    if !configured {
      return NotConfigured, calls;
    }
    if !Destructurable(body) {
      return InternalError, calls;
    }
    var planId := Field(body.value, "planId");
    var userId := Field(body.value, "userId");
    if !Truthy(planId) || !Truthy(userId) {
      return MissingFields, calls;
    }
    var price := PurchasablePrice(planId);
    if price.None? {
      return InvalidPlan, calls;
    }
    if !userId.Str? {
      return InternalError, calls;
    }
    response, calls := PurchaseSteps(db, userId.s, planId.s, price.value, origin, customerReply, sessionReply, now);
  }

  /** The part of `POST` after validation: make sure of a customer id, then create the
      session. */
  method PurchaseSteps(db: Firestore, uid: string, planKey: string, price: string, origin: Option<string>,
                       customerReply: Option<string>, sessionReply: Option<string>, now: int)
    returns (response: CheckoutResponse, calls: seq<StripeCall>)
    modifies db
    ensures CheckoutOutcome(response, calls, db.users)
            == Purchase(uid, planKey, price, origin, customerReply, sessionReply, old(db.users), now)
    ensures db.qrCodes == old(db.qrCodes)
  {
    var customerId;
    customerId, calls := AssignCustomer(db, uid, customerReply, now);
    if customerId.None? {
      return InternalError, calls;
    }
    calls := calls + [CreateSession(SessionParamsFor(customerId.value, price, origin, uid, planKey))];
    if sessionReply.None? {
      return InternalError, calls;
    }
    return SessionCreated(sessionReply.value), calls;
  }

  /** Read the profile's customer id; when there is none, create a customer and store its
      id. `customerId` is reassigned to the new customer's id, as the route's `let` is. */
  method AssignCustomer(db: Firestore, uid: string, customerReply: Option<string>, now: int)
    returns (customerId: Option<Json>, calls: seq<StripeCall>)
    modifies db
    ensures CustomerOutcome(customerId, calls, db.users) == EnsureCustomer(uid, customerReply, old(db.users), now)
    ensures db.qrCodes == old(db.qrCodes)
  {
    calls := [];
    var profile := db.GetUser(uid);
    customerId := CustomerIdOf(profile);
    if customerId.None? {
      calls := calls + [CreateCustomer(map["firebaseUid" := uid])];
      if customerReply.None? {
        return None, calls;
      }
      customerId := Some(Str(customerReply.value));
      var outcome := db.UpdateSubscription(uid, CustomerRecord(profile, customerReply.value), now);
      if outcome.Failed? {
        return None, calls;
      }
    }
  }

  // --------------------------------------------------------------------------
  // Properties

  /** The route answers 503 exactly when Stripe is not configured. A request turned away
      before the profile is read (503, either 400, or an unreadable body) calls Stripe
      for nothing and writes nothing. */
  lemma RejectedRequestsChangeNothing(configured: bool, body: Option<Json>, origin: Option<string>,
                                      customerReply: Option<string>, sessionReply: Option<string>,
                                      users: Collection, now: int)
    ensures var r := Checkout(configured, body, origin, customerReply, sessionReply, users, now);
      && (r.response.NotConfigured? <==> !configured)
      && (!Destructurable(body) ==> r.calls == [] && r.users == users)
      && (r.response.NotConfigured? || r.response.MissingFields? || r.response.InvalidPlan?
          ==> r.calls == [] && r.users == users)
  {
    if configured && Destructurable(body) {
      RequestValidation(Field(body.value, "planId"), Field(body.value, "userId"), origin, customerReply, sessionReply, users, now);
    }
  }

  /** A request missing either field is refused with 400; so is one naming a plan other
      than the two premium plans. */
  lemma RequestValidation(planId: Json, userId: Json, origin: Option<string>,
                          customerReply: Option<string>, sessionReply: Option<string>,
                          users: Collection, now: int)
    ensures var r := Validate(planId, userId, origin, customerReply, sessionReply, users, now);
      && (r.response.MissingFields? <==> !Truthy(planId) || !Truthy(userId))
      && (r.response.InvalidPlan? <==>
            Truthy(planId) && Truthy(userId) && planId != Str("PREMIUM_MONTHLY") && planId != Str("PREMIUM_YEARLY"))
      && (r.response.MissingFields? || r.response.InvalidPlan? ==> r.calls == [] && r.users == users)
  {
    PurchasablePlans(planId);
  }

  /** A profile that already holds a truthy customer id keeps it: no customer is created,
      nothing is written, and the session is charged to that id. */
  lemma ExistingCustomerReused(uid: string, planKey: string, price: string, origin: Option<string>,
                               customerReply: Option<string>, sessionReply: Option<string>,
                               users: Collection, now: int)
    requires CustomerIdOf(ProfileOf(users, uid)).Some?
    ensures var r := Purchase(uid, planKey, price, origin, customerReply, sessionReply, users, now);
      && r.users == users
      && r.calls == [CreateSession(SessionParamsFor(CustomerIdOf(ProfileOf(users, uid)).value, price, origin, uid, planKey))]
  {
  }

  /** A profile without a customer id gets one: a customer tagged with the user's id is
      created first. If that call fails, or there is no profile document to update, the
      route fails with nothing written. */
  lemma NewCustomerFailure(uid: string, planKey: string, price: string, origin: Option<string>,
                           customerReply: Option<string>, sessionReply: Option<string>,
                           users: Collection, now: int)
    requires CustomerIdOf(ProfileOf(users, uid)).None?
    requires customerReply.None? || uid !in users
    ensures var r := Purchase(uid, planKey, price, origin, customerReply, sessionReply, users, now);
      && r.response.InternalError?
      && r.calls == [CreateCustomer(map["firebaseUid" := uid])]
      && r.users == users
  {
  }

  /** Otherwise only this user's document changes: its subscription sub-record keeps its
      prior fields but takes the new customer id, plan `free` and status `active`; then the
      session is charged to the new customer. */
  lemma NewCustomerRecorded(uid: string, planKey: string, price: string, origin: Option<string>,
                            customerId: string, sessionReply: Option<string>,
                            users: Collection, now: int)
    requires CustomerIdOf(ProfileOf(users, uid)).None?
    requires uid in users
    ensures var r := Purchase(uid, planKey, price, origin, Some(customerId), sessionReply, users, now);
      var record := CustomerRecord(ProfileOf(users, uid), customerId);
      && r.calls == [CreateCustomer(map["firebaseUid" := uid]),
                     CreateSession(SessionParamsFor(Str(customerId), price, origin, uid, planKey))]
      && r.users == users[uid := SubscriptionWrite(users[uid], record, now)]
      && record.Obj? && NewCustomerFields(users[uid], record.fields, customerId)
  {
    NewCustomerRecordFields(users, uid, customerId);
  }

  /** The sub-record written for a new customer, relative to the stored document. */
  ghost predicate NewCustomerFields(stored: Doc, written: Doc, customerId: string) {
    var prior := if "subscription" in stored then FieldsOf(stored["subscription"]) else map[];
    && written.Keys == prior.Keys + {"stripeCustomerId", "plan", "status"}
    && written["stripeCustomerId"] == Str(customerId)
    && written["plan"] == Str("free")
    && written["status"] == Str("active")
    && (forall k :: k in prior && k != "stripeCustomerId" && k != "plan" && k != "status" ==> written[k] == prior[k])
  }

  lemma NewCustomerRecordFields(users: Collection, uid: string, customerId: string)
    requires uid in users
    ensures CustomerRecord(ProfileOf(users, uid), customerId).Obj?
    ensures NewCustomerFields(users[uid], CustomerRecord(ProfileOf(users, uid), customerId).fields, customerId)
  {
    var p := ProfileOf(users, uid).value;
    assert "subscription" in p <==> "subscription" in users[uid];
    assert "subscription" in p ==> p["subscription"] == users[uid]["subscription"];
    assert "stripeCustomerId"[0] != "plan"[0] && "stripeCustomerId"[2] != "status"[2] && "plan"[0] != "status"[0];
  }

  /** The customer id is assigned once: after a checkout that created a customer and
      stored its id, the next checkout by the same user reuses that id, creates no
      customer and writes nothing. */
  lemma CustomerAssignedOnce(uid: string, planKey: string, price: string, origin: Option<string>,
                             customerReply: Option<string>, sessionReply: Option<string>,
                             users: Collection, now: int,
                             customerReply2: Option<string>, sessionReply2: Option<string>, later: int)
    requires CustomerIdOf(ProfileOf(users, uid)).None?
    requires uid in users
    requires customerReply.Some? && customerReply.value != ""
    ensures var first := Purchase(uid, planKey, price, origin, customerReply, sessionReply, users, now);
      var second := Purchase(uid, planKey, price, origin, customerReply2, sessionReply2, first.users, later);
      && second.users == first.users
      && second.calls == [CreateSession(SessionParamsFor(Str(customerReply.value), price, origin, uid, planKey))]
  {
    var record := CustomerRecord(ProfileOf(users, uid), customerReply.value);
    NewCustomerRecordFields(users, uid, customerReply.value);
    var after := users[uid := SubscriptionWrite(users[uid], record, now)];
    NewCustomerRecorded(uid, planKey, price, origin, customerReply.value, sessionReply, users, now);
    StoredCustomerIdReadsBack(users, uid, record.fields, customerReply.value, now);
    ExistingCustomerReused(uid, planKey, price, origin, customerReply2, sessionReply2, after, later);
  }

  /** A request that reaches Stripe or succeeds has passed every guard, and the route
      then does what `Purchase` says. */
  lemma ReachesPurchase(configured: bool, body: Option<Json>, origin: Option<string>,
                        customerReply: Option<string>, sessionReply: Option<string>,
                        users: Collection, now: int)
    requires var r := Checkout(configured, body, origin, customerReply, sessionReply, users, now);
      r.response.SessionCreated? || |r.calls| > 0
    ensures configured && Destructurable(body)
    ensures Field(body.value, "planId").Str? && Field(body.value, "userId").Str?
    ensures Truthy(Field(body.value, "planId")) && Truthy(Field(body.value, "userId"))
    ensures PurchasablePrice(Field(body.value, "planId")).Some?
    ensures Checkout(configured, body, origin, customerReply, sessionReply, users, now)
         == Purchase(Field(body.value, "userId").s, Field(body.value, "planId").s,
                     PurchasablePrice(Field(body.value, "planId")).value,
                     origin, customerReply, sessionReply, users, now)
  {
    var planId := Field(body.value, "planId");
    var userId := Field(body.value, "userId");
    assert configured && Destructurable(body);
    assert Truthy(planId) && Truthy(userId) && PurchasablePrice(planId).Some? && userId.Str?;
  }

  /** Every session the route creates is its last Stripe call, for exactly one unit of a
      premium plan's price, in subscription mode, paid by card with a required billing
      address, returning to the subscribe page, and tagged with the user id and the plan
      key. */
  lemma SessionParameters(configured: bool, body: Option<Json>, origin: Option<string>,
                          customerReply: Option<string>, sessionReply: Option<string>,
                          users: Collection, now: int, i: int)
    requires 0 <= i < |Checkout(configured, body, origin, customerReply, sessionReply, users, now).calls|
    requires Checkout(configured, body, origin, customerReply, sessionReply, users, now).calls[i].CreateSession?
    ensures var r := Checkout(configured, body, origin, customerReply, sessionReply, users, now);
      && i == |r.calls| - 1
      && Destructurable(body) && Field(body.value, "planId").Str? && Field(body.value, "userId").Str?
      && SessionFor(r.calls[i].params, Field(body.value, "planId").s, Field(body.value, "userId").s, origin)
  {
    ReachesPurchase(configured, body, origin, customerReply, sessionReply, users, now);
    var planId := Field(body.value, "planId");
    var userId := Field(body.value, "userId");
    var r := Checkout(configured, body, origin, customerReply, sessionReply, users, now);
    var price := PurchasablePrice(planId).value;
    var p := r.calls[i].params;
    assert i == |r.calls| - 1;
    assert p == SessionParamsFor(p.customer, price, origin, userId.s, planId.s);
    PurchasablePlans(planId);
    SessionParamsForIsSessionFor(p.customer, origin, userId.s, planId.s);
  }

  /** The parameters the route builds for a premium plan meet `SessionFor`. */
  lemma SessionParamsForIsSessionFor(customer: Json, origin: Option<string>, uid: string, planKey: string)
    requires planKey == "PREMIUM_MONTHLY" || planKey == "PREMIUM_YEARLY"
    ensures SessionFor(SessionParamsFor(customer, Table[planKey].stripePriceId.value, origin, uid, planKey), planKey, uid, origin)
  {
  }

  /** What the route asks of every Checkout Session for `planKey` by `uid`. */
  ghost predicate SessionFor(p: SessionParams, planKey: string, uid: string, origin: Option<string>) {
    && (planKey == "PREMIUM_MONTHLY" || planKey == "PREMIUM_YEARLY")
    && p.lineItems == [LineItem(Table[planKey].stripePriceId.value, 1)]
    && p.mode == "subscription"
    && p.paymentMethodTypes == ["card"] && p.billingAddressCollection == "required"
    && p.metadata == map["firebaseUid" := uid, "planId" := planKey]
    && p.successUrl == OriginText(origin) + "/subscribe/success?session_id={CHECKOUT_SESSION_ID}"
    && p.cancelUrl == OriginText(origin) + "/subscribe?canceled=true"
  }

  /** A successful answer carries the id of the session Stripe created, and it comes only
      after that session was requested. */
  lemma SuccessCarriesSessionId(configured: bool, body: Option<Json>, origin: Option<string>,
                                customerReply: Option<string>, sessionReply: Option<string>,
                                users: Collection, now: int)
    ensures var r := Checkout(configured, body, origin, customerReply, sessionReply, users, now);
      r.response.SessionCreated? ==>
        && sessionReply == Some(r.response.sessionId)
        && |r.calls| >= 1 && r.calls[|r.calls| - 1].CreateSession?
  {
    var r := Checkout(configured, body, origin, customerReply, sessionReply, users, now);
    if r.response.SessionCreated? {
      ReachesPurchase(configured, body, origin, customerReply, sessionReply, users, now);
    }
  }
}
