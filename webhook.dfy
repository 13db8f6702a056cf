/** The payment provider's webhook (`app/api/stripe/webhook/route.ts`): a
    signature gate, then one handler per event kind, each of which finds a
    user and overwrites a fixed set of columns. */
module Webhook {
  import opened Common
  import opened Users

  /** `PLAN_LIMITS`: only the paid plans are listed. */
  const PlanLimits: map<string, nat> := map["PRO" := 500, "PREMIUM" := 2000, "ENTERPRISE" := 10000]

  /** The limit used for any plan `PLAN_LIMITS` does not list, FREE included. */
  const FallbackLimit: nat := 50

  /** `PLAN_LIMITS[plan] || 50`. */
  function LimitFor(plan: string): (limit: nat)
    ensures limit > 0
    ensures plan !in PlanLimits ==> limit == FallbackLimit
  {
    if plan in PlanLimits && PlanLimits[plan] != 0 then PlanLimits[plan] else FallbackLimit
  }

  /** The whole table, plan by plan: 500, 2000, 10000 for the paid plans and 50
      for every other string. */
  lemma LimitTable(plan: string)
    ensures LimitFor("PRO") == 500 && LimitFor("PREMIUM") == 2000 && LimitFor("ENTERPRISE") == 10000
    ensures LimitFor("FREE") == 50
    ensures plan != "PRO" && plan != "PREMIUM" && plan != "ENTERPRISE" ==> LimitFor(plan) == 50
  {
  }

  /** The plan/limit invariant: the stored limit is the one the plan implies. */
  predicate LimitMatchesPlan(u: User)
  {
    u.messagesLimit == LimitFor(u.plan)
  }

  predicate AllLimitsMatchPlans(t: Table)
  {
    forall k :: k in t.users ==> LimitMatchesPlan(t.users[k])
  }

  /** `subscription.status === 'active' ? 'ACTIVE' : 'INACTIVE'`. */
  function StatusFromProvider(providerStatus: string): (s: Status)
    ensures s == Active <==> providerStatus == "active"
    ensures s == Active || s == Inactive
  {
    if providerStatus == "active" then Active else Inactive
  }

  /** The part of a checkout session the handler reads. */
  datatype CheckoutSession = CheckoutSession(metadata: Option<map<string, string>>, subscription: Option<string>)

  /** A verified event. The event type string is represented by the
      constructor; every type the switch does not list is `Unhandled`. The
      `customer` of a subscription or invoice is cast `as string` but may be
      `null` (`None`), and is passed to the lookup as it is. */
  datatype Event =
    | CheckoutSessionCompleted(session: CheckoutSession)
    | SubscriptionUpdated(customer: Option<string>, providerStatus: string)
    | SubscriptionDeleted(customer: Option<string>)
    | InvoicePaymentSucceeded(customer: Option<string>)
    | InvoicePaymentFailed(customer: Option<string>)
    | Unhandled(eventType: string)

  /** The raw delivery: the body text and the `stripe-signature` header. */
  datatype Request = Request(body: string, signature: Option<string>)

  datatype Body = Received | Error(message: string)
  datatype Response = Response(status: nat, body: Body)

  /** What a delivery leaves behind: the table and the reply. */
  datatype Outcome = Outcome(table: Table, response: Response)

  const NoSignature := Response(400, Error("No signature"))
  const InvalidSignature := Response(400, Error("Invalid signature"))
  const ProcessingFailed := Response(500, Error("Webhook processing failed"))
  const Acknowledged := Response(200, Received)

  // The columns each handler writes.

  function CheckoutPatch(plan: string, subscription: Option<string>): Patch
  {
    Patch(Some(plan), Some(LimitFor(plan)), Some(0), None, Some(subscription), Some(Active))
  }

  function SubscriptionUpdatedPatch(providerStatus: string): Patch
  {
    NoChange.(subscriptionStatus := Some(StatusFromProvider(providerStatus)))
  }

  const CanceledPatch: Patch := Patch(Some("FREE"), Some(50), None, None, None, Some(Canceled))
  const PaymentSucceededPatch: Patch := NoChange.(messagesUsed := Some(0), subscriptionStatus := Some(Active))
  const PaymentFailedPatch: Patch := NoChange.(subscriptionStatus := Some(PastDue))

  /** The two metadata fields the checkout handler needs, when both are truthy. */
  function CheckoutTarget(s: CheckoutSession): (r: Option<(string, string)>)
    ensures r.Some? <==> Truthy(Field(s.metadata, "userId")) && Truthy(Field(s.metadata, "plan"))
    ensures r.Some? ==> r.value.0 == s.metadata.value["userId"] && r.value.1 == s.metadata.value["plan"]
  {
    var userId := Field(s.metadata, "userId");
    var plan := Field(s.metadata, "plan");
    if !Truthy(userId) || !Truthy(plan) then None else Some((userId.value, plan.value))
  }

  /** `handleCheckoutCompleted`; `None` when the update throws because no user
      has the metadata's id. */
  function CheckoutCompleted(t: Table, s: CheckoutSession): (r: Option<Table>)
    requires WellFormed(t)
    ensures r.Some? ==> WellFormed(r.value)
  {
    match CheckoutTarget(s)
    case None => Some(t)
    case Some((userId, plan)) => Updated(t, userId, CheckoutPatch(plan, s.subscription))
  }

  /** The shape shared by the four handlers that resolve a customer id: no
      matching user leaves the table as it is. */
  function ForCustomer(t: Table, customer: Option<string>, p: Patch): (r: Table)
    requires WellFormed(t)
    ensures WellFormed(r)
  {
    match FindByCustomer(t, customer)
    case None => t
    case Some(id) => Updated(t, id, p).value
  }

  /** The `switch (event.type)`. */
  function Dispatch(t: Table, e: Event): (r: Option<Table>)
    requires WellFormed(t)
    ensures r.Some? ==> WellFormed(r.value)
  {
    match e
    case CheckoutSessionCompleted(s) => CheckoutCompleted(t, s)
    case SubscriptionUpdated(c, st) => Some(ForCustomer(t, c, SubscriptionUpdatedPatch(st)))
    case SubscriptionDeleted(c) => Some(ForCustomer(t, c, CanceledPatch))
    case InvoicePaymentSucceeded(c) => Some(ForCustomer(t, c, PaymentSucceededPatch))
    case InvoicePaymentFailed(c) => Some(ForCustomer(t, c, PaymentFailedPatch))
    case Unhandled(_) => Some(t)
  }

  /** `POST`: `constructEvent` is the provider's signature check, a partial
      function of the body and the header (`None` when it throws). */
  function Process(t: Table, req: Request, constructEvent: (string, string) -> Option<Event>): (o: Outcome)
    requires WellFormed(t)
    ensures WellFormed(o.table)
  {
    if !Truthy(req.signature) then Outcome(t, NoSignature)
    else match constructEvent(req.body, req.signature.value)
      case None => Outcome(t, InvalidSignature)
      case Some(e) =>
        match Dispatch(t, e)
        case None => Outcome(t, ProcessingFailed)
        case Some(t') => Outcome(t', Acknowledged)
  }

  // ---------------------------------------------------------------------
  // The route as it runs against the store.

  method HandleCheckoutCompleted(store: UserStore, s: CheckoutSession) returns (ok: bool)
    requires store.Valid()
    modifies store
    ensures store.Valid()
    ensures CheckoutCompleted(old(store.Snapshot()), s) == (if ok then Some(store.Snapshot()) else None)
    ensures !ok ==> store.Snapshot() == old(store.Snapshot())
  {
    var userId := Field(s.metadata, "userId");
    var plan := Field(s.metadata, "plan");
    if !Truthy(userId) || !Truthy(plan) {
      return true;
    }
    ok := store.Update(userId.value, CheckoutPatch(plan.value, s.subscription));
  }

  /** Resolves the customer and writes `p` on the user found, if any. */
  method UpdateByCustomer(store: UserStore, customer: Option<string>, p: Patch)
    requires store.Valid()
    modifies store
    ensures store.Valid()
    ensures store.Snapshot() == ForCustomer(old(store.Snapshot()), customer, p)
  {
    var user := FindByCustomer(store.Snapshot(), customer);
    if user.None? {
      return;
    }
    var found := store.Update(user.value, p);
  }

  method HandleSubscriptionUpdated(store: UserStore, customer: Option<string>, providerStatus: string)
    requires store.Valid()
    modifies store
    ensures store.Valid()
    ensures store.Snapshot() == ForCustomer(old(store.Snapshot()), customer, SubscriptionUpdatedPatch(providerStatus))
  {
    var status := StatusFromProvider(providerStatus);
    UpdateByCustomer(store, customer, NoChange.(subscriptionStatus := Some(status)));
  }

  method HandleSubscriptionCanceled(store: UserStore, customer: Option<string>)
    requires store.Valid()
    modifies store
    ensures store.Valid()
    ensures store.Snapshot() == ForCustomer(old(store.Snapshot()), customer, CanceledPatch)
  {
    UpdateByCustomer(store, customer, Patch(Some("FREE"), Some(50), None, None, None, Some(Canceled)));
  }

  method HandlePaymentSucceeded(store: UserStore, customer: Option<string>)
    requires store.Valid()
    modifies store
    ensures store.Valid()
    ensures store.Snapshot() == ForCustomer(old(store.Snapshot()), customer, PaymentSucceededPatch)
  {
    UpdateByCustomer(store, customer, NoChange.(messagesUsed := Some(0), subscriptionStatus := Some(Active)));
  }

  method HandlePaymentFailed(store: UserStore, customer: Option<string>)
    requires store.Valid()
    modifies store
    ensures store.Valid()
    ensures store.Snapshot() == ForCustomer(old(store.Snapshot()), customer, PaymentFailedPatch)
  {
    UpdateByCustomer(store, customer, NoChange.(subscriptionStatus := Some(PastDue)));
  }

  method Post(store: UserStore, req: Request, constructEvent: (string, string) -> Option<Event>) returns (resp: Response)
    requires store.Valid()
    modifies store
    ensures store.Valid()
    ensures Outcome(store.Snapshot(), resp) == Process(old(store.Snapshot()), req, constructEvent)
  {
    if !Truthy(req.signature) {
      return NoSignature;
    }
    var event := constructEvent(req.body, req.signature.value);
    if event.None? {
      return InvalidSignature;
    }
    match event.value {
      case CheckoutSessionCompleted(s) =>
        var ok := HandleCheckoutCompleted(store, s);
        if !ok {
          return ProcessingFailed;
        }
      case SubscriptionUpdated(c, st) => HandleSubscriptionUpdated(store, c, st);
      case SubscriptionDeleted(c) => HandleSubscriptionCanceled(store, c);
      case InvoicePaymentSucceeded(c) => HandlePaymentSucceeded(store, c);
      case InvoicePaymentFailed(c) => HandlePaymentFailed(store, c);
      case Unhandled(_) =>
    }
    resp := Acknowledged;
  }

  // ---------------------------------------------------------------------
  // Properties of the specification.

  /** A missing or empty signature header, or a body the signature check
      rejects, is answered with 400 and leaves every record as it was. A
      missing header is answered before the signature check is consulted. */
  lemma SignatureGate(t: Table, req: Request, constructEvent: (string, string) -> Option<Event>, other: (string, string) -> Option<Event>)
    requires WellFormed(t)
    ensures !Truthy(req.signature) ==> Process(t, req, constructEvent) == Outcome(t, NoSignature)
    ensures !Truthy(req.signature) ==> Process(t, req, constructEvent) == Process(t, req, other)
    ensures Truthy(req.signature) && constructEvent(req.body, req.signature.value).None? ==>
      Process(t, req, constructEvent) == Outcome(t, InvalidSignature)
  {
  }

  /** A verified event is acknowledged with 200 and the table `Dispatch` gives,
      unless the checkout handler throws, which is answered with 500 and
      writes nothing. */
  lemma VerifiedEventDispatched(t: Table, req: Request, constructEvent: (string, string) -> Option<Event>, e: Event)
    requires WellFormed(t)
    requires Truthy(req.signature) && constructEvent(req.body, req.signature.value) == Some(e)
    ensures Dispatch(t, e).Some? ==> Process(t, req, constructEvent) == Outcome(Dispatch(t, e).value, Acknowledged)
    ensures Dispatch(t, e).None? ==> Process(t, req, constructEvent) == Outcome(t, ProcessingFailed)
    ensures Process(t, req, constructEvent).response.status == 500 ==> e.CheckoutSessionCompleted?
  {
  }

  /** `checkout.session.completed`: with both metadata fields truthy and a user
      of that id, the user gets the plan, the plan's limit, zero usage, the
      session's subscription and ACTIVE, whatever the record held before; the
      customer id and every other user are untouched. With a field missing or
      empty nothing changes; with no such user the update throws. */
  lemma CheckoutCompletedEffect(t: Table, s: CheckoutSession)
    requires WellFormed(t)
    ensures CheckoutTarget(s).None? ==> Dispatch(t, CheckoutSessionCompleted(s)) == Some(t)
    ensures CheckoutTarget(s).Some? && CheckoutTarget(s).value.0 !in t.users ==>
      Dispatch(t, CheckoutSessionCompleted(s)).None?
    ensures CheckoutTarget(s).Some? && CheckoutTarget(s).value.0 in t.users ==>
      var (id, plan) := CheckoutTarget(s).value;
      var r := Dispatch(t, CheckoutSessionCompleted(s));
      && r.Some? && OnlyChanged(t, r.value, id)
      && r.value.users[id].plan == plan
      && r.value.users[id].messagesLimit == LimitFor(plan)
      && r.value.users[id].messagesUsed == 0
      && r.value.users[id].stripeSubscriptionId == s.subscription
      && r.value.users[id].subscriptionStatus == Some(Active)
      && r.value.users[id].stripeCustomerId == t.users[id].stripeCustomerId
      && r.value.users[id].email == t.users[id].email
  {
  }

  /** The record a checkout leaves does not depend on the entitlement the user
      had before. */
  lemma CheckoutIgnoresPriorEntitlement(u1: User, u2: User, plan: string, subscription: Option<string>)
    requires u1.id == u2.id && u1.email == u2.email && u1.stripeCustomerId == u2.stripeCustomerId
    ensures ApplyPatch(u1, CheckoutPatch(plan, subscription)) == ApplyPatch(u2, CheckoutPatch(plan, subscription))
  {
  }

  /** The effect of the four customer-keyed events on the user the customer id
      resolves to; an unresolvable customer id changes nothing. */
  lemma CustomerEventEffect(t: Table, e: Event)
    requires WellFormed(t)
    requires !e.CheckoutSessionCompleted? && !e.Unhandled?
    ensures FindByCustomer(t, e.customer).None? ==> Dispatch(t, e) == Some(t)
    ensures FindByCustomer(t, e.customer).Some? ==>
      var id := FindByCustomer(t, e.customer).value;
      var u := t.users[id];
      var r := Dispatch(t, e);
      && r.Some? && OnlyChanged(t, r.value, id)
      && var u' := r.value.users[id];
      && u'.id == u.id && u'.email == u.email
      && u'.stripeCustomerId == u.stripeCustomerId
      && u'.stripeSubscriptionId == u.stripeSubscriptionId
      && (e.SubscriptionUpdated? ==>
            && u'.subscriptionStatus == Some(if e.providerStatus == "active" then Active else Inactive)
            && u'.plan == u.plan && u'.messagesLimit == u.messagesLimit && u'.messagesUsed == u.messagesUsed)
      && (e.SubscriptionDeleted? ==>
            && u'.plan == "FREE" && u'.messagesLimit == 50 && u'.subscriptionStatus == Some(Canceled)
            && u'.messagesUsed == u.messagesUsed)
      && (e.InvoicePaymentSucceeded? ==>
            && u'.messagesUsed == 0 && u'.subscriptionStatus == Some(Active)
            && u'.plan == u.plan && u'.messagesLimit == u.messagesLimit)
      && (e.InvoicePaymentFailed? ==>
            && u'.subscriptionStatus == Some(PastDue)
            && u'.plan == u.plan && u'.messagesLimit == u.messagesLimit && u'.messagesUsed == u.messagesUsed)
  {
  }

  /** An invoice whose `customer` is `null` is matched against users with no
      customer id: when there is one, the first of them gets its usage reset
      and ACTIVE written, though no payment of theirs was made. */
  lemma NullCustomerPaymentResetsUnlinkedUser(t: Table, someone: string)
    requires WellFormed(t) && someone in t.users && t.users[someone].stripeCustomerId.None?
    ensures FindByCustomer(t, None).Some?
    ensures var target := FindByCustomer(t, None).value;
      var r := Dispatch(t, InvoicePaymentSucceeded(None));
      && t.users[target].stripeCustomerId.None?
      && r.Some? && r.value.users[target].messagesUsed == 0
      && r.value.users[target].subscriptionStatus == Some(Active)
  {
    CustomerEventEffect(t, InvoicePaymentSucceeded(None));
  }

  /** An event type the switch does not list is acknowledged and changes nothing. */
  lemma UnhandledEventIgnored(t: Table, eventType: string)
    requires WellFormed(t)
    ensures Dispatch(t, Unhandled(eventType)) == Some(t)
  {
  }

  /** The user an event addresses: the metadata's user id for a checkout with
      both fields present, the user the customer id resolves to otherwise. */
  function Addressee(t: Table, e: Event): Option<string>
    requires WellFormed(t)
  {
    match e
    case CheckoutSessionCompleted(s) => if CheckoutTarget(s).Some? then Some(CheckoutTarget(s).value.0) else None
    case Unhandled(_) => None
    case _ => FindByCustomer(t, e.customer)
  }

  /** The status transition table: the status each event kind writes, from any
      prior status (CANCELED included). */
  function TransitionTarget(e: Event): Option<Status>
  {
    match e
    case CheckoutSessionCompleted(_) => Some(Active)
    case SubscriptionUpdated(_, st) => Some(if st == "active" then Active else Inactive)
    case SubscriptionDeleted(_) => Some(Canceled)
    case InvoicePaymentSucceeded(_) => Some(Active)
    case InvoicePaymentFailed(_) => Some(PastDue)
    case Unhandled(_) => None
  }

  /** The handlers implement the transition table: an event with no addressee
      changes nothing; otherwise only the addressee changes and its status
      becomes the table's target. */
  lemma DispatchFollowsTransitionTable(t: Table, e: Event)
    requires WellFormed(t)
    ensures Addressee(t, e).None? ==> Dispatch(t, e) == Some(t)
    ensures Addressee(t, e).Some? && Addressee(t, e).value !in t.users ==> Dispatch(t, e).None?
    ensures Addressee(t, e).Some? && Addressee(t, e).value in t.users ==>
      var id := Addressee(t, e).value;
      && TransitionTarget(e).Some?
      && Dispatch(t, e).Some? && OnlyChanged(t, Dispatch(t, e).value, id)
      && Dispatch(t, e).value.users[id].subscriptionStatus == TransitionTarget(e)
  {
    match e
    case CheckoutSessionCompleted(s) => CheckoutCompletedEffect(t, s);
    case Unhandled(_) =>
    case _ => CustomerEventEffect(t, e);
  }

  /** No handler writes the customer id, so every record keeps its id, email
      and customer id, and the rows stay as they were. */
  lemma DispatchKeepsIdentity(t: Table, e: Event)
    requires WellFormed(t)
    requires Dispatch(t, e).Some?
    ensures Dispatch(t, e).value.rows == t.rows
    ensures Dispatch(t, e).value.users.Keys == t.users.Keys
    ensures forall k :: k in t.users ==>
      && Dispatch(t, e).value.users[k].stripeCustomerId == t.users[k].stripeCustomerId
      && Dispatch(t, e).value.users[k].email == t.users[k].email
  {
    match e
    case CheckoutSessionCompleted(s) =>
      if CheckoutTarget(s).Some? {
        UpdatedKeepsIdentity(t, CheckoutTarget(s).value.0, CheckoutPatch(CheckoutTarget(s).value.1, s.subscription));
      }
    case SubscriptionUpdated(c, st) => ForCustomerKeepsIdentity(t, c, SubscriptionUpdatedPatch(st));
    case SubscriptionDeleted(c) => ForCustomerKeepsIdentity(t, c, CanceledPatch);
    case InvoicePaymentSucceeded(c) => ForCustomerKeepsIdentity(t, c, PaymentSucceededPatch);
    case InvoicePaymentFailed(c) => ForCustomerKeepsIdentity(t, c, PaymentFailedPatch);
    case Unhandled(_) =>
  }

  lemma ForCustomerKeepsIdentity(t: Table, customer: Option<string>, p: Patch)
    requires WellFormed(t) && p.stripeCustomerId.None?
    ensures KeepsIdentity(t, ForCustomer(t, customer, p))
  {
    var found := FindByCustomer(t, customer);
    if found.Some? {
      UpdatedKeepsIdentity(t, found.value, p);
    }
  }

  /** A patch that writes a plan writes that plan's limit with it, and one
      that writes no plan writes no limit. */
  predicate KeepsLimitMatchingPlan(p: Patch)
  {
    if p.plan.Some? then p.messagesLimit == Some(LimitFor(p.plan.value)) else p.messagesLimit.None?
  }

  lemma ForCustomerKeepsLimitsMatchingPlans(t: Table, customer: Option<string>, p: Patch)
    requires WellFormed(t) && AllLimitsMatchPlans(t) && KeepsLimitMatchingPlan(p)
    ensures AllLimitsMatchPlans(ForCustomer(t, customer, p))
  {
    var found := FindByCustomer(t, customer);
    if found.Some? {
      var id := found.value;
      var t1 := Updated(t, id, p).value;
      assert ForCustomer(t, customer, p) == t1;
      ApplyPatchFrame(t.users[id], p);
      forall k | k in t1.users
        ensures LimitMatchesPlan(t1.users[k])
      {
        if k != id {
          assert t1.users[k] == t.users[k];
        }
      }
    }
  }

  /** Every event keeps the plan/limit invariant: a record whose limit matched
      its plan still does afterwards. */
  lemma DispatchKeepsLimitsMatchingPlans(t: Table, e: Event)
    requires WellFormed(t) && AllLimitsMatchPlans(t)
    requires Dispatch(t, e).Some?
    ensures AllLimitsMatchPlans(Dispatch(t, e).value)
  {
    match e
    case CheckoutSessionCompleted(s) =>
      if CheckoutTarget(s).Some? {
        var (id, plan) := CheckoutTarget(s).value;
        ApplyPatchFrame(t.users[id], CheckoutPatch(plan, s.subscription));
      }
    case SubscriptionUpdated(c, st) => ForCustomerKeepsLimitsMatchingPlans(t, c, SubscriptionUpdatedPatch(st));
    case SubscriptionDeleted(c) =>
      assert LimitFor("FREE") == 50;
      ForCustomerKeepsLimitsMatchingPlans(t, c, CanceledPatch);
    case InvoicePaymentSucceeded(c) => ForCustomerKeepsLimitsMatchingPlans(t, c, PaymentSucceededPatch);
    case InvoicePaymentFailed(c) => ForCustomerKeepsLimitsMatchingPlans(t, c, PaymentFailedPatch);
    case Unhandled(_) =>
  }

  /** A customer-keyed handler run twice leaves what it left once: its patch
      does not touch the customer id, so the second run finds the same user
      and rewrites the same values. */
  lemma {:induction false} ForCustomerIdempotent(t: Table, customer: Option<string>, p: Patch)
    requires WellFormed(t)
    requires p.stripeCustomerId.None?
    ensures ForCustomer(ForCustomer(t, customer, p), customer, p) == ForCustomer(t, customer, p)
  {
    var t1 := ForCustomer(t, customer, p);
    var found := FindByCustomer(t, customer);
    if found.Some? {
      var id := found.value;
      assert t1 == Updated(t, id, p).value;
      UpdatedKeepsIdentity(t, id, p);
      FindByCustomerStable(t, t1, customer);
      UpdatedIdempotent(t, id, p);
    }
  }

  lemma CheckoutCompletedIdempotent(t: Table, s: CheckoutSession)
    requires WellFormed(t)
    requires CheckoutCompleted(t, s).Some?
    ensures CheckoutCompleted(CheckoutCompleted(t, s).value, s) == CheckoutCompleted(t, s)
  {
    if CheckoutTarget(s).Some? {
      var (id, plan) := CheckoutTarget(s).value;
      var t1 := CheckoutCompleted(t, s).value;
      ApplyPatchIdempotent(t.users[id], CheckoutPatch(plan, s.subscription));
      assert t1.users[id := ApplyPatch(t1.users[id], CheckoutPatch(plan, s.subscription))] == t1.users;
    }
  }

  /** Delivering the same event twice leaves what delivering it once left. */
  lemma DispatchIdempotent(t: Table, e: Event)
    requires WellFormed(t)
    ensures Dispatch(t, e).Some? ==> Dispatch(Dispatch(t, e).value, e) == Dispatch(t, e)
  {
    match e
    case CheckoutSessionCompleted(s) =>
      if CheckoutCompleted(t, s).Some? {
        CheckoutCompletedIdempotent(t, s);
      }
    case SubscriptionUpdated(c, st) => ForCustomerIdempotent(t, c, SubscriptionUpdatedPatch(st));
    case SubscriptionDeleted(c) => ForCustomerIdempotent(t, c, CanceledPatch);
    case InvoicePaymentSucceeded(c) => ForCustomerIdempotent(t, c, PaymentSucceededPatch);
    case InvoicePaymentFailed(c) => ForCustomerIdempotent(t, c, PaymentFailedPatch);
    case Unhandled(_) =>
  }

  /** Processing the identical request twice yields the same table and the
      same reply, as long as the signature check answers it alike both times
      (the SDK's timestamp tolerance is outside the model). */
  lemma ProcessIdempotent(t: Table, req: Request, constructEvent: (string, string) -> Option<Event>)
    requires WellFormed(t)
    ensures Process(Process(t, req, constructEvent).table, req, constructEvent) == Process(t, req, constructEvent)
  {
    if Truthy(req.signature) && constructEvent(req.body, req.signature.value).Some? {
      DispatchIdempotent(t, constructEvent(req.body, req.signature.value).value);
    }
  }

  /** The plan/limit invariant holds of the table after every delivery. */
  lemma ProcessKeepsLimitsMatchingPlans(t: Table, req: Request, constructEvent: (string, string) -> Option<Event>)
    requires WellFormed(t) && AllLimitsMatchPlans(t)
    ensures AllLimitsMatchPlans(Process(t, req, constructEvent).table)
  {
    if Truthy(req.signature) && constructEvent(req.body, req.signature.value).Some? {
      var e := constructEvent(req.body, req.signature.value).value;
      if Dispatch(t, e).Some? {
        DispatchKeepsLimitsMatchingPlans(t, e);
      }
    }
  }
}
