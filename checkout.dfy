/** Opening a checkout (`app/api/stripe/checkout/route.ts`): an ordered chain
    of guards, then create-or-reuse of the user's customer id, then a checkout
    session whose metadata the webhook's checkout handler reads back. */
module Checkout {
  import opened Common
  import opened Users
  import Webhook

  /** The plans a checkout may be opened for. */
  const PurchasablePlans: seq<string> := ["PRO", "PREMIUM", "ENTERPRISE"]

  /** `STRIPE_PRODUCTS[plan].priceId` for the three paid plans: read from the
      environment, `''` when the variable is unset. */
  datatype PriceIds = PriceIds(pro: string, premium: string, enterprise: string)

  function PriceIdFor(prices: PriceIds, plan: string): string
    requires plan in PurchasablePlans
  {
    if plan == "PRO" then prices.pro
    else if plan == "PREMIUM" then prices.premium
    else prices.enterprise
  }

  /** The parsed request body: `request.json()` either throws or yields a
      value whose `plan` is a string or absent (any non-string `plan` fails the
      whitelist exactly as an absent one does). */
  datatype RequestBody = Malformed(message: string) | Json(plan: Option<string>)

  /** The request as the handler sees it: the session's email and the body. */
  datatype Request = Request(sessionEmail: Option<string>, body: RequestBody)

  /** A reply of the payment provider's SDK: a value, or the message of the
      error it throws. */
  datatype Reply<T> = Returned(value: T) | Threw(message: string)

  datatype CustomerParams = CustomerParams(email: string, userId: string)

  /** The arguments of `stripe.checkout.sessions.create`. */
  datatype SessionParams = SessionParams(
    customer: string,
    mode: string,
    paymentMethodTypes: seq<string>,
    priceId: string,
    quantity: nat,
    successUrl: string,
    cancelUrl: string,
    metadata: map<string, string>)

  datatype Body = Url(url: string) | Error(message: string)
  datatype Response = Response(status: nat, body: Body)

  /** What one request leaves behind: the table, the reply, and the SDK calls
      it made (`None` for a call it did not make). */
  datatype Outcome = Outcome(
    table: Table,
    response: Response,
    customerCall: Option<CustomerParams>,
    sessionCall: Option<SessionParams>)

  const Unauthenticated := Response(401, Error("No autenticado"))
  const InvalidPlan := Response(400, Error("Plan inválido"))
  const UserNotFound := Response(404, Error("Usuario no encontrado"))
  const PriceNotConfigured := Response(500, Error("Precio no configurado"))

  /** The catch block: the error's message, or a default when it is empty. */
  function ServerError(message: string): (r: Response)
    ensures r.status == 500 && r.body.Error? && r.body.message != ""
    ensures message != "" ==> r.body.message == message
    ensures message == "" ==> r.body.message == "Error al crear sesión de pago"
  {
    Response(500, Error(if message != "" then message else "Error al crear sesión de pago"))
  }

  /** The guard chain either rejects the request or yields the user, the plan
      and the price to charge. */
  datatype Guarded = Reject(response: Response) | Pass(userId: string, plan: string, priceId: string)

  /** The guards in the order the handler runs them: session email, body,
      plan whitelist, user lookup, configured price. A request passes exactly
      when it meets all five. */
  function Guard(t: Table, req: Request, prices: PriceIds): (g: Guarded)
    requires WellFormed(t)
    ensures g.Pass? ==> g.userId in t.users && g.plan in PurchasablePlans && g.priceId != ""
    ensures g.Pass? ==> Truthy(req.sessionEmail) && t.users[g.userId].email == req.sessionEmail.value
    ensures g.Pass? ==> req.body.Json? && req.body.plan == Some(g.plan) && g.priceId == PriceIdFor(prices, g.plan)
    ensures (&& Truthy(req.sessionEmail) && req.body.Json?
             && Truthy(req.body.plan) && req.body.plan.value in PurchasablePlans
             && FindByEmail(t, req.sessionEmail.value).Some?
             && PriceIdFor(prices, req.body.plan.value) != "") ==>
      g.Pass? && g.userId == FindByEmail(t, req.sessionEmail.value).value
  {
    if !Truthy(req.sessionEmail) then Reject(Unauthenticated)
    else match req.body
      case Malformed(m) => Reject(ServerError(m))
      case Json(plan) =>
        if !Truthy(plan) || plan.value !in PurchasablePlans then Reject(InvalidPlan)
        else match FindByEmail(t, req.sessionEmail.value)
          case None => Reject(UserNotFound)
          case Some(id) =>
            var priceId := PriceIdFor(prices, plan.value);
            if priceId == "" then Reject(PriceNotConfigured)
            else Pass(id, plan.value, priceId)
  }

  /** The session the handler asks for, for a customer, a user and a plan: a
      card-paid subscription of one unit of the plan's price, returning to the
      account page with `success` or `canceled` set, and tagged with the user
      and the plan. */
  function SessionFor(customer: string, userId: string, plan: string, priceId: string, baseUrl: string): (p: SessionParams)
    ensures p.customer == customer && p.priceId == priceId
    ensures p.mode == "subscription" && p.paymentMethodTypes == ["card"] && p.quantity == 1
    ensures p.successUrl == baseUrl + "/account?success=true"
    ensures p.cancelUrl == baseUrl + "/account?canceled=true"
    ensures p.successUrl != p.cancelUrl
    ensures p.metadata.Keys == {"userId", "plan"} && p.metadata["userId"] == userId && p.metadata["plan"] == plan
  {
    SessionParams(
      customer, "subscription", ["card"], priceId, 1,
      baseUrl + "/account?success=true", baseUrl + "/account?canceled=true",
      map["userId" := userId, "plan" := plan])
  }

  function SessionReply(reply: Reply<string>): Response
  {
    match reply
    case Returned(url) => Response(200, Url(url))
    case Threw(m) => ServerError(m)
  }

  /** `POST`. `baseUrl` is `NEXTAUTH_URL`; `newCustomer` and `newSession` are
      what the SDK's `customers.create` and `checkout.sessions.create` return. */
  function Checkout(t: Table, req: Request, prices: PriceIds, baseUrl: string,
                    newCustomer: Reply<string>, newSession: Reply<string>): (o: Outcome)
    requires WellFormed(t)
    ensures WellFormed(o.table)
  {
    match Guard(t, req, prices)
    case Reject(resp) => Outcome(t, resp, None, None)
    case Pass(id, plan, priceId) =>
      var user := t.users[id];
      if Truthy(user.stripeCustomerId) then
        var session := SessionFor(user.stripeCustomerId.value, id, plan, priceId, baseUrl);
        Outcome(t, SessionReply(newSession), None, Some(session))
      else
        var customer := CustomerParams(user.email, id);
        match newCustomer
        case Threw(m) => Outcome(t, ServerError(m), Some(customer), None)
        case Returned(cid) =>
          var t' := Updated(t, id, NoChange.(stripeCustomerId := Some(cid))).value;
          var session := SessionFor(cid, id, plan, priceId, baseUrl);
          Outcome(t', SessionReply(newSession), Some(customer), Some(session))
  }

  /** The route as it runs against the store: `customerId` starts as the
      stored one and is replaced, and persisted, when there is none. */
  method Post(store: UserStore, req: Request, prices: PriceIds, baseUrl: string,
              newCustomer: Reply<string>, newSession: Reply<string>)
    returns (resp: Response, customerCall: Option<CustomerParams>, sessionCall: Option<SessionParams>)
    requires store.Valid()
    modifies store
    ensures store.Valid()
    ensures Outcome(store.Snapshot(), resp, customerCall, sessionCall)
         == Checkout(old(store.Snapshot()), req, prices, baseUrl, newCustomer, newSession)
  {
    customerCall, sessionCall := None, None;
    var guarded := Guard(store.Snapshot(), req, prices);
    if guarded.Reject? {
      return guarded.response, None, None;
    }
    var id, plan, priceId := guarded.userId, guarded.plan, guarded.priceId;
    var user := store.users[id];

    var customerId := user.stripeCustomerId;
    if !Truthy(customerId) {
      customerCall := Some(CustomerParams(user.email, id));
      if newCustomer.Threw? {
        return ServerError(newCustomer.message), customerCall, None;
      }
      customerId := Some(newCustomer.value);
      var found := store.Update(id, NoChange.(stripeCustomerId := customerId));
    }

    var session := SessionFor(customerId.value, id, plan, priceId, baseUrl);
    sessionCall := Some(session);
    resp := SessionReply(newSession);
  }

  // ---------------------------------------------------------------------
  // Properties of the specification.

  /** Without a session email the reply is 401, the body is not looked at,
      and nothing is read, written or created. */
  lemma UnauthenticatedRejected(t: Table, req: Request, prices: PriceIds, baseUrl: string,
                                c: Reply<string>, s: Reply<string>, body: RequestBody)
    requires WellFormed(t) && !Truthy(req.sessionEmail)
    ensures Checkout(t, req, prices, baseUrl, c, s) == Outcome(t, Unauthenticated, None, None)
    ensures Checkout(t, req.(body := body), prices, baseUrl, c, s) == Checkout(t, req, prices, baseUrl, c, s)
  {
  }

  /** An authenticated request whose plan is missing or not PRO, PREMIUM or
      ENTERPRISE (FREE included) gets 400 and changes nothing. */
  lemma InvalidPlanRejected(t: Table, req: Request, prices: PriceIds, baseUrl: string,
                            c: Reply<string>, s: Reply<string>)
    requires WellFormed(t) && Truthy(req.sessionEmail) && req.body.Json?
    requires !Truthy(req.body.plan) || req.body.plan.value !in PurchasablePlans
    ensures Checkout(t, req, prices, baseUrl, c, s) == Outcome(t, InvalidPlan, None, None)
    ensures Checkout(t, req.(body := Json(Some("FREE"))), prices, baseUrl, c, s) == Outcome(t, InvalidPlan, None, None)
  {
  }

  /** A valid plan for an email no user has gets 404 and changes nothing. */
  lemma UnknownUserRejected(t: Table, req: Request, prices: PriceIds, baseUrl: string,
                            c: Reply<string>, s: Reply<string>)
    requires WellFormed(t) && Truthy(req.sessionEmail) && req.body.Json?
    requires Truthy(req.body.plan) && req.body.plan.value in PurchasablePlans
    requires forall k :: k in t.users ==> t.users[k].email != req.sessionEmail.value
    ensures Checkout(t, req, prices, baseUrl, c, s) == Outcome(t, UserNotFound, None, None)
  {
  }

  /** A body that `request.json()` cannot parse throws inside the `try`: the
      catch answers 500 with the parser's message, and nothing is looked up,
      created or written. */
  lemma MalformedBodyFails(t: Table, req: Request, prices: PriceIds, baseUrl: string,
                           c: Reply<string>, s: Reply<string>)
    requires WellFormed(t) && Truthy(req.sessionEmail) && req.body.Malformed?
    ensures Checkout(t, req, prices, baseUrl, c, s) == Outcome(t, ServerError(req.body.message), None, None)
  {
  }

  /** An empty price id for the requested plan (the value when its variable
      is unset) gets 500 "Precio no configurado" before any customer is
      created, whatever the other plans' prices are. */
  lemma UnconfiguredPriceRejected(t: Table, req: Request, prices: PriceIds, baseUrl: string,
                                  c: Reply<string>, s: Reply<string>)
    requires WellFormed(t) && Truthy(req.sessionEmail) && req.body.Json?
    requires Truthy(req.body.plan) && req.body.plan.value in PurchasablePlans
    requires FindByEmail(t, req.sessionEmail.value).Some?
    requires PriceIdFor(prices, req.body.plan.value) == ""
    ensures Checkout(t, req, prices, baseUrl, c, s) == Outcome(t, PriceNotConfigured, None, None)
  {
  }

  /** A request that passes the guards is for the session's user and asks the
      SDK for a session charging the plan's price, for that user's stored
      customer id when it has one (no customer created, nothing written), and
      otherwise for a freshly created customer whose id is stored on the user
      and nowhere else. */
  lemma CustomerCreateOrReuse(t: Table, req: Request, prices: PriceIds, baseUrl: string,
                              c: Reply<string>, s: Reply<string>)
    requires WellFormed(t) && Guard(t, req, prices).Pass?
    ensures var g := Guard(t, req, prices);
      var u := t.users[g.userId];
      var o := Checkout(t, req, prices, baseUrl, c, s);
      && u.email == req.sessionEmail.value
      && (Truthy(u.stripeCustomerId) ==>
            && o.table == t && o.customerCall.None?
            && o.sessionCall == Some(SessionFor(u.stripeCustomerId.value, g.userId, g.plan, g.priceId, baseUrl)))
      && (!Truthy(u.stripeCustomerId) ==> o.customerCall == Some(CustomerParams(u.email, u.id)))
      && (!Truthy(u.stripeCustomerId) && c.Threw? ==> o.table == t && o.sessionCall.None? && o.response == ServerError(c.message))
      && (!Truthy(u.stripeCustomerId) && c.Returned? ==>
            && OnlyChanged(t, o.table, g.userId)
            && o.table.users[g.userId] == u.(stripeCustomerId := Some(c.value))
            && o.sessionCall == Some(SessionFor(c.value, g.userId, g.plan, g.priceId, baseUrl)))
      && (o.sessionCall.Some? ==> o.sessionCall.value.priceId == PriceIdFor(prices, req.body.plan.value) && o.response == SessionReply(s))
      && (o.sessionCall.Some? ==> o.sessionCall.value.metadata == map["userId" := g.userId, "plan" := req.body.plan.value])
      && (o.sessionCall.Some? && s.Returned? ==> o.response == Response(200, Url(s.value)))
      && (o.sessionCall.Some? && s.Threw? ==> o.response == ServerError(s.message))
  {
  }

  /** The session's metadata carries exactly the user id and the plan, so the
      webhook's checkout handler reads back that user and that plan. */
  lemma MetadataReadByWebhook(customer: string, userId: string, plan: string, priceId: string, baseUrl: string,
                              subscription: Option<string>)
    requires userId != "" && plan != ""
    ensures var md := SessionFor(customer, userId, plan, priceId, baseUrl).metadata;
      && md.Keys == {"userId", "plan"}
      && Webhook.CheckoutTarget(Webhook.CheckoutSession(Some(md), subscription)) == Some((userId, plan))
  {
  }

  /** End to end, for a table whose user ids are non-empty: once the session
      that a checkout asked for completes, the user who asked has the plan
      they asked for, that plan's limit (500, 2000 or 10000), no usage, and an
      active subscription. */
  lemma CheckoutThenWebhook(t: Table, req: Request, prices: PriceIds, baseUrl: string,
                            c: Reply<string>, s: Reply<string>, subscription: Option<string>)
    requires WellFormed(t) && (forall k :: k in t.users ==> k != "")
    requires Checkout(t, req, prices, baseUrl, c, s).sessionCall.Some?
    ensures var o := Checkout(t, req, prices, baseUrl, c, s);
      var g := Guard(t, req, prices);
      var after := Webhook.Dispatch(o.table,
        Webhook.CheckoutSessionCompleted(Webhook.CheckoutSession(Some(o.sessionCall.value.metadata), subscription)));
      && g.Pass?
      && req.body.Json? && req.body.plan == Some(g.plan)
      && after.Some?
      && after.value.users[g.userId].plan == g.plan
      && after.value.users[g.userId].messagesLimit == Webhook.LimitFor(g.plan)
      && Webhook.LimitFor(g.plan) in {500, 2000, 10000}
      && after.value.users[g.userId].messagesUsed == 0
      && after.value.users[g.userId].subscriptionStatus == Some(Active)
  {
    var o := Checkout(t, req, prices, baseUrl, c, s);
    var g := Guard(t, req, prices);
    SessionRequested(t, req, prices, baseUrl, c, s);
    CompletionGrantsPlan(o.table, g.userId, g.plan, subscription);
  }

  /** The webhook's checkout handler, given the metadata a checkout writes for
      an existing user and a purchasable plan, grants that plan. */
  lemma CompletionGrantsPlan(t: Table, userId: string, plan: string, subscription: Option<string>)
    requires WellFormed(t) && userId in t.users && userId != "" && plan in PurchasablePlans
    ensures var after := Webhook.Dispatch(t,
        Webhook.CheckoutSessionCompleted(Webhook.CheckoutSession(Some(map["userId" := userId, "plan" := plan]), subscription)));
      && after.Some?
      && after.value.users[userId].plan == plan
      && after.value.users[userId].messagesLimit == Webhook.LimitFor(plan)
      && Webhook.LimitFor(plan) in {500, 2000, 10000}
      && after.value.users[userId].messagesUsed == 0
      && after.value.users[userId].subscriptionStatus == Some(Active)
  {
    var session := Webhook.CheckoutSession(Some(map["userId" := userId, "plan" := plan]), subscription);
    assert Webhook.CheckoutTarget(session) == Some((userId, plan));
    Webhook.CheckoutCompletedEffect(t, session);
    Webhook.LimitTable(plan);
  }

  /** A checkout that asks for a session passed the guards, for the plan the
      body names, and the session's metadata names that user and that plan. */
  lemma SessionRequested(t: Table, req: Request, prices: PriceIds, baseUrl: string,
                         c: Reply<string>, s: Reply<string>)
    requires WellFormed(t)
    requires Checkout(t, req, prices, baseUrl, c, s).sessionCall.Some?
    ensures var o := Checkout(t, req, prices, baseUrl, c, s);
      var g := Guard(t, req, prices);
      && g.Pass?
      && req.body.Json? && req.body.plan == Some(g.plan)
      && g.userId in t.users && g.userId in o.table.users
      && o.sessionCall.value.metadata == map["userId" := g.userId, "plan" := g.plan]
  {
  }
}
