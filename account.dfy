/** The figures the account page (`app/account/page.tsx`) derives from the
    usage it loads: the upgrade offers, the remaining messages, and whether the
    manage-subscription button is shown. */
module Account {
  import opened Common
  import opened Users
  import Webhook

  datatype PlanInfo = PlanInfo(name: string, messages: nat)

  /** `Object.entries(PLANS)`, in declaration order. Prices and feature lists
      are not modelled. */
  const Plans: seq<(string, PlanInfo)> := [
    ("FREE", PlanInfo("FREE", 50)),
    ("PRO", PlanInfo("PRO", 500)),
    ("PREMIUM", PlanInfo("PREMIUM", 2000)),
    ("ENTERPRISE", PlanInfo("ENTERPRISE", 10000))
  ]

  const PlanOrder: seq<string> := ["FREE", "PRO", "PREMIUM", "ENTERPRISE"]

  /** The usage object the page loads. */
  datatype Usage = Usage(used: int, limit: int, plan: string, subscriptionStatus: Option<string>)

  /** `s.indexOf(x)`: the first position of `x`, or -1. */
  function IndexOf(s: seq<string>, x: string): int
  {
    if s == [] then -1
    else if s[0] == x then 0
    else
      var k := IndexOf(s[1..], x);
      if k == -1 then -1 else k + 1
  }

  /** `indexOf` gives the first position of `x`, or -1 exactly when `x` is
      absent. */
  lemma {:induction false} IndexOfSpec(s: seq<string>, x: string)
    ensures -1 <= IndexOf(s, x) < |s|
    ensures IndexOf(s, x) == -1 <==> x !in s
    ensures IndexOf(s, x) >= 0 ==> s[IndexOf(s, x)] == x && forall j :: 0 <= j < IndexOf(s, x) ==> s[j] != x
    decreases |s|
  {
    if s != [] && s[0] != x {
      IndexOfSpec(s[1..], x);
      assert x in s <==> x in s[1..] by {
        assert s == [s[0]] + s[1..];
      }
    }
  }

  /** The entries whose key is strictly later in `PlanOrder` than `bound`. */
  function LaterThan(entries: seq<(string, PlanInfo)>, bound: int): seq<(string, PlanInfo)>
  {
    if entries == [] then []
    else
      var rest := LaterThan(entries[1..], bound);
      if IndexOf(PlanOrder, entries[0].0) > bound then [entries[0]] + rest else rest
  }

  /** `availablePlans`. */
  function AvailablePlans(currentPlan: string): seq<(string, PlanInfo)>
  {
    LaterThan(Plans, IndexOf(PlanOrder, currentPlan))
  }

  /** Whether the "Actualizar Plan" section is rendered. */
  predicate ShowsUpgrades(currentPlan: string)
  {
    |AvailablePlans(currentPlan)| > 0
  }

  /** `usage.limit - usage.used`. */
  function RemainingMessages(u: Usage): int
  {
    u.limit - u.used
  }

  /** `usage.subscriptionStatus && usage.subscriptionStatus !== 'INACTIVE'`. */
  predicate ShowsManageButton(u: Usage)
  {
    Truthy(u.subscriptionStatus) && u.subscriptionStatus.value != "INACTIVE"
  }

  /** Each key of `PLANS` sits at its own position of the plan order. */
  lemma PlanKeysInOrder()
    ensures forall k :: 0 <= k < |Plans| ==> IndexOf(PlanOrder, Plans[k].0) == k
  {
    forall k | 0 <= k < |Plans|
      ensures IndexOf(PlanOrder, Plans[k].0) == k
    {
      IndexOfSpec(PlanOrder, PlanOrder[k]);
      assert Plans[k].0 == PlanOrder[k];
      assert forall j :: 0 <= j < |PlanOrder| && j != k ==> PlanOrder[j] != PlanOrder[k];
    }
  }

  /** Where the entries strictly after `bound` begin, within the suffix of
      `PLANS` that starts at `start`. */
  function Cut(start: nat, bound: int): (c: nat)
    requires start <= |Plans|
    ensures start <= c <= |Plans|
  {
    if bound + 1 < start then start else if bound + 1 > |Plans| then |Plans| else bound + 1
  }

  /** Filtering the suffix of `PLANS` from `start` keeps exactly its entries
      past `bound`, in declaration order. */
  lemma {:induction false} LaterThanSuffix(start: nat, bound: int)
    requires start <= |Plans|
    ensures LaterThan(Plans[start..], bound) == Plans[Cut(start, bound)..]
    decreases |Plans| - start
  {
    if start < |Plans| {
      var run := Plans[start..];
      PlanKeysInOrder();
      assert run[0] == Plans[start] && run[1..] == Plans[start + 1..];
      assert IndexOf(PlanOrder, run[0].0) == start;
      LaterThanSuffix(start + 1, bound);
      if start > bound {
        assert Cut(start, bound) == start && Cut(start + 1, bound) == start + 1;
        assert Plans[start..] == [Plans[start]] + Plans[start + 1..];
      } else {
        assert Cut(start, bound) == Cut(start + 1, bound);
      }
    }
  }

  /** For a plan of the order, the offers are exactly the plans strictly after
      it, in the order `PLANS` declares them. */
  lemma OffersForKnownPlan(currentPlan: string)
    requires currentPlan in PlanOrder
    ensures AvailablePlans(currentPlan) == Plans[IndexOf(PlanOrder, currentPlan) + 1..]
  {
    IndexOfSpec(PlanOrder, currentPlan);
    LaterThanSuffix(0, IndexOf(PlanOrder, currentPlan));
    assert Plans[0..] == Plans;
  }

  /** An unrecognised plan string has index -1, so every plan is offered, FREE
      included. */
  lemma OffersForUnknownPlan(currentPlan: string)
    requires currentPlan !in PlanOrder
    ensures AvailablePlans(currentPlan) == Plans
  {
    IndexOfSpec(PlanOrder, currentPlan);
    LaterThanSuffix(0, -1);
    assert Plans[0..] == Plans;
  }

  /** The offers plan by plan: each paid plan is offered only the plans
      above it, and ENTERPRISE is offered nothing. */
  lemma OffersPerPlan()
    ensures AvailablePlans("FREE") == Plans[1..]
    ensures AvailablePlans("PRO") == Plans[2..]
    ensures AvailablePlans("PREMIUM") == [Plans[3]]
    ensures AvailablePlans("ENTERPRISE") == []
  {
    PlanKeysInOrder();
    assert forall k :: 0 <= k < |Plans| ==> Plans[k].0 == PlanOrder[k];
    OffersForKnownPlan(PlanOrder[0]);
    OffersForKnownPlan(PlanOrder[1]);
    OffersForKnownPlan(PlanOrder[2]);
    OffersForKnownPlan(PlanOrder[3]);
  }

  /** The upgrade section is rendered for every plan string except
      ENTERPRISE. */
  lemma UpgradesShownUnlessEnterprise(currentPlan: string)
    ensures ShowsUpgrades(currentPlan) <==> currentPlan != "ENTERPRISE"
  {
    if currentPlan in PlanOrder {
      OffersForKnownPlan(currentPlan);
    } else {
      OffersForUnknownPlan(currentPlan);
    }
  }

  /** The filter keeps an entry exactly when its key is strictly later in the
      order than the bound. */
  lemma {:induction false} LaterThanMembers(entries: seq<(string, PlanInfo)>, bound: int, e: (string, PlanInfo))
    ensures e in LaterThan(entries, bound) <==> e in entries && IndexOf(PlanOrder, e.0) > bound
    decreases |entries|
  {
    if entries != [] {
      LaterThanMembers(entries[1..], bound, e);
      assert entries == [entries[0]] + entries[1..];
    }
  }

  /** A plan is offered exactly when it comes strictly later in the order
      than the current one. */
  lemma OfferedIffLater(currentPlan: string, key: string, info: PlanInfo)
    ensures (key, info) in AvailablePlans(currentPlan) <==>
      (key, info) in Plans && IndexOf(PlanOrder, key) > IndexOf(PlanOrder, currentPlan)
  {
    LaterThanMembers(Plans, IndexOf(PlanOrder, currentPlan), (key, info));
  }

  /** The remaining-messages figure is not clamped: it is negative whenever
      usage exceeds the limit. */
  lemma RemainingUnclamped(u: Usage)
    ensures RemainingMessages(u) < 0 <==> u.used > u.limit
    ensures RemainingMessages(u) + u.used == u.limit
  {
  }

  /** The usage the page shows for a stored record (the endpoint that reports
      it is not part of this model; it is taken to report the record's columns). */
  function UsageOf(u: User): Usage
  {
    Usage(u.messagesUsed, u.messagesLimit, u.plan,
          if u.subscriptionStatus.Some? then Some(StatusName(u.subscriptionStatus.value)) else None)
  }

  /** The button is hidden only when no status is stored or the status is
      INACTIVE: ACTIVE, CANCELED and PAST_DUE all show it. */
  lemma ManageButtonPerStatus(u: User)
    ensures ShowsManageButton(UsageOf(u)) <==> u.subscriptionStatus.Some? && u.subscriptionStatus.value != Inactive
  {
    if u.subscriptionStatus.Some? {
      StatusNamesDistinct(u.subscriptionStatus.value, Inactive);
    }
  }

  /** The usage the `getUsage` branch of `app/api/chat/route(1).js` reports:
      used, limit and plan, without the status. */
  function ReportedUsage(u: User): Usage
  {
    Usage(u.messagesUsed, u.messagesLimit, u.plan, None)
  }

  /** Fed by that endpoint, the page never shows the manage button, whatever
      status is stored, although it shows the same remaining figure. */
  lemma ReportedUsageHidesManageButton(u: User)
    ensures !ShowsManageButton(ReportedUsage(u))
    ensures RemainingMessages(ReportedUsage(u)) == RemainingMessages(UsageOf(u))
    ensures u.subscriptionStatus == Some(Active) ==> ShowsManageButton(UsageOf(u)) != ShowsManageButton(ReportedUsage(u))
  {
    ManageButtonPerStatus(u);
  }

  /** The message counts `PLANS` shows agree with the webhook's limits,
      including its fallback of 50 for FREE. */
  lemma PlansAgreeWithWebhook()
    ensures forall k :: 0 <= k < |Plans| ==> Plans[k].1.messages == Webhook.LimitFor(Plans[k].0)
    ensures forall k :: 0 <= k < |Plans| ==> Plans[k].0 == PlanOrder[k] && Plans[k].1.name == Plans[k].0
  {
    Webhook.LimitTable("FREE");
  }

  /** After a renewal payment the page shows the whole limit as remaining. */
  lemma RenewalRestoresRemaining(t: Table, customer: Option<string>)
    requires WellFormed(t)
    requires Webhook.Dispatch(t, Webhook.InvoicePaymentSucceeded(customer)).Some?
    requires FindByCustomer(t, customer).Some?
    ensures var id := FindByCustomer(t, customer).value;
      var u' := Webhook.Dispatch(t, Webhook.InvoicePaymentSucceeded(customer)).value.users[id];
      RemainingMessages(UsageOf(u')) == t.users[id].messagesLimit && ShowsManageButton(UsageOf(u'))
  {
    Webhook.CustomerEventEffect(t, Webhook.InvoicePaymentSucceeded(customer));
    ManageButtonPerStatus(Webhook.Dispatch(t, Webhook.InvoicePaymentSucceeded(customer)).value.users[FindByCustomer(t, customer).value]);
  }
}
