/**
 * The billing-portal route (src/app/api/stripe/customer-portal/route.ts): a chain of
 * early-return guards ending in one Stripe call. `portalReply` is the URL of the portal
 * session that `billingPortal.sessions.create` returns; None means that call throws.
 */
module PortalRoute {
  import opened Wrappers
  import opened Database
  import opened Requests

  datatype PortalResponse =
    | NotConfigured       // 503
    | MissingUserId       // 400 "Missing userId"
    | NoCustomer          // 404 "No Stripe customer found"
    | PortalUrl(url: string)
    | InternalError       // 500, anything thrown

  function StatusCode(r: PortalResponse): (code: int)
    ensures code == 200 <==> r.PortalUrl?
    ensures code == 400 <==> r.MissingUserId?
    ensures code == 404 <==> r.NoCustomer?
    ensures code == 503 <==> r.NotConfigured?
    ensures code == 500 <==> r.InternalError?
  {
    match r
    case NotConfigured => 503
    case MissingUserId => 400
    case NoCustomer => 404
    case PortalUrl(_) => 200
    case InternalError => 500
  }

  /** The argument of `stripe.billingPortal.sessions.create`. */
  datatype PortalSession = PortalSession(customer: Json, returnUrl: string)

  /** The answer, and the portal session requested on the way (None when the route did not
      get that far). */
  datatype PortalOutcome = PortalOutcome(response: PortalResponse, request: Option<PortalSession>)

  /** `POST`. A non-string `userId` makes `doc(db, 'users', userId)` throw. The route only
      reads the store. */
  function Portal(configured: bool, body: Option<Json>, origin: Option<string>,
                  users: Collection, portalReply: Option<string>): (r: PortalOutcome)
    ensures r.request.Some? ==>
      && configured && Destructurable(body) && Field(body.value, "userId").Str?
      && CustomerIdOf(ProfileOf(users, Field(body.value, "userId").s)) == Some(r.request.value.customer)
      && r.request.value.returnUrl == OriginText(origin) + "/subscribe"
    ensures r.response.PortalUrl? <==> r.request.Some? && portalReply.Some?
    ensures r.response.PortalUrl? ==> portalReply == Some(r.response.url)
  {
    if !configured then PortalOutcome(NotConfigured, None)
    else if !Destructurable(body) then PortalOutcome(InternalError, None)
    else
      var userId := Field(body.value, "userId");
      if !Truthy(userId) then PortalOutcome(MissingUserId, None)
      else if !userId.Str? then PortalOutcome(InternalError, None)
      else
        var customerId := CustomerIdOf(ProfileOf(users, userId.s));
        if customerId.None? then PortalOutcome(NoCustomer, None)
        else
          var session := PortalSession(customerId.value, OriginText(origin) + "/subscribe");
          PortalOutcome(if portalReply.Some? then PortalUrl(portalReply.value) else InternalError, Some(session))
  }

  /** The guards: 503 exactly when Stripe is not configured; 400 exactly when the body has
      no truthy `userId`; 404 exactly when the user has no profile or no truthy stored
      customer id. None of them requests a portal session. */
  lemma PortalGuards(configured: bool, body: Option<Json>, origin: Option<string>,
                     users: Collection, portalReply: Option<string>)
    ensures var r := Portal(configured, body, origin, users, portalReply);
      && (r.response.NotConfigured? <==> !configured)
      && (r.response.MissingUserId? <==> configured && Destructurable(body) && !Truthy(Field(body.value, "userId")))
      && (r.response.NoCustomer? <==>
            && configured && Destructurable(body) && Field(body.value, "userId").Str?
            && Truthy(Field(body.value, "userId"))
            && CustomerIdOf(ProfileOf(users, Field(body.value, "userId").s)).None?)
      && (r.response.NotConfigured? || r.response.MissingUserId? || r.response.NoCustomer? ==> r.request.None?)
  {
  }

  /** A user with a stored customer id gets a portal session for exactly that id,
      returning to the subscribe page; the answer is the session's URL, or 500 when the
      call throws. */
  lemma PortalForStoredCustomer(body: Option<Json>, origin: Option<string>,
                                users: Collection, portalReply: Option<string>)
    requires Destructurable(body) && Field(body.value, "userId").Str? && Truthy(Field(body.value, "userId"))
    requires CustomerIdOf(ProfileOf(users, Field(body.value, "userId").s)).Some?
    ensures var r := Portal(true, body, origin, users, portalReply);
      && r.request == Some(PortalSession(CustomerIdOf(ProfileOf(users, Field(body.value, "userId").s)).value,
                                         OriginText(origin) + "/subscribe"))
      && r.response == (if portalReply.Some? then PortalUrl(portalReply.value) else InternalError)
  {
  }
}
