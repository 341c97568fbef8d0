/** The billing webhook (`stripe-webhook`): which events write, which user
    they write for, and how a subscription's status decides the profile's
    plan and the date the paid plan started. Signature checking, the
    payment provider's API and the database are inputs. */
module StripeWebhook {
  import opened Wrappers

  /** The `customer` field of a subscription or checkout session. */
  datatype CustomerRef =
    | NoCustomer
    | CustomerId(id: string)
    | CustomerObject(objectId: Option<string>, deleted: bool)

  /** `resolveCustomerId`: no customer (or an empty id string) gives none;
      an id string is itself; a deleted customer gives none; any other
      customer object gives its id. */
  function ResolveCustomerId(c: CustomerRef): (r: Option<string>)
    ensures c.NoCustomer? ==> r.None?
    ensures c.CustomerId? ==> (r.Some? <==> c.id != "") && (r.Some? ==> r.value == c.id)
    ensures c.CustomerObject? && c.deleted ==> r.None?
    ensures c.CustomerObject? && !c.deleted ==> r == c.objectId
  {
    match c
    case NoCustomer => None
    case CustomerId(id) => if id == "" then None else Some(id)
    case CustomerObject(objectId, deleted) => if deleted then None else objectId
  }

  /** JavaScript truthiness of a `customer` field: any object, or a
      non-empty id string. */
  predicate CustomerTruthy(c: CustomerRef) { c != NoCustomer && !(c.CustomerId? && c.id == "") }

  datatype Plan = Free | Pro

  /** The subscription statuses that grant the paid plan. */
  const ProStatuses: set<string> := {"active", "trialing", "past_due", "unpaid"}

  function PlanFor(status: string): (r: Plan)
    ensures r == Pro <==> status in ProStatuses
  {
    if status in ProStatuses then Pro else Free
  }

  /** The fields of a subscription the webhook reads; `periodStart` is the
      start of the current period already written as an ISO date. */
  datatype Subscription = Subscription(
    id: string, status: string, customer: CustomerRef, periodStart: string,
    unitAmount: Option<int>, metadataUserId: Option<string>)

  /** The stored profile, when there is one. */
  datatype Profile = Profile(plan: string, planStartedAt: Option<string>)

  /** What the profile update writes. */
  datatype ProfileUpdate = ProfileUpdate(plan: Plan, planStartedAt: Option<string>, customerId: Option<string>)

  /** What the subscription upsert writes (the fields with logic in them). */
  datatype SubscriptionRow = SubscriptionRow(id: string, userId: string, status: string,
                                             amount: Option<real>, customerId: Option<string>)

  /** A truthy string: present and non-empty. */
  predicate Truthy(s: Option<string>) { s.Some? && s.value != "" }

  /** The stored amount: the unit amount in cents over 100 when it is
      present and non-zero, otherwise none — a zero price is stored as none. */
  function Amount(unitAmount: Option<int>): (r: Option<real>)
    ensures r.Some? <==> unitAmount.Some? && unitAmount.value != 0
    ensures r.Some? ==> r.value * 100.0 == unitAmount.value as real
  {
    if unitAmount.Some? && unitAmount.value != 0 then Some(unitAmount.value as real / 100.0) else None
  }

  /** The start of the paid plan after an update: kept when the profile
      already had the paid plan with a start date, the period start when
      entering the paid plan, and none on the free plan. */
  function PlanStartedAt(plan: Plan, profile: Option<Profile>, periodStart: string): (r: Option<string>)
    ensures plan == Free ==> r.None?
    ensures plan == Pro && profile.Some? && profile.value.plan == "pro" && Truthy(profile.value.planStartedAt)
            ==> r == profile.value.planStartedAt
    ensures plan == Pro && !(profile.Some? && profile.value.plan == "pro" && Truthy(profile.value.planStartedAt))
            ==> r == Some(periodStart)
  {
    match plan
    case Free => None
    case Pro =>
      if profile.Some? && profile.value.plan == "pro" && Truthy(profile.value.planStartedAt)
      then profile.value.planStartedAt
      else Some(periodStart)
  }

  /** `upsertSubscription`: the subscription row and the profile update. */
  function UpsertSubscription(userId: string, sub: Subscription, profile: Option<Profile>): (r: (SubscriptionRow, ProfileUpdate))
    ensures r.0.userId == userId && r.0.id == sub.id && r.0.status == sub.status
    ensures r.0.amount == Amount(sub.unitAmount)
    ensures r.0.customerId == ResolveCustomerId(sub.customer) && r.1.customerId == ResolveCustomerId(sub.customer)
    ensures r.1.plan == PlanFor(sub.status)
    ensures r.1.planStartedAt == PlanStartedAt(PlanFor(sub.status), profile, sub.periodStart)
  {
    var customerId := ResolveCustomerId(sub.customer);
    var plan := PlanFor(sub.status);
    (SubscriptionRow(sub.id, userId, sub.status, Amount(sub.unitAmount), customerId),
     ProfileUpdate(plan, PlanStartedAt(plan, profile, sub.periodStart), customerId))
  }

  function PlanName(p: Plan): string
  {
    match p
    case Free => "free"
    case Pro => "pro"
  }

  /** The profile as it reads after an update. */
  function Stored(u: ProfileUpdate): Profile { Profile(PlanName(u.plan), u.planStartedAt) }

  /** A second paid-plan update keeps the start date of the first, however
      the period moved; an update to the free plan clears it. */
  lemma {:induction false} RepeatedProKeepsStart(userId: string, first: Subscription, second: Subscription, profile: Option<Profile>)
    requires first.status in ProStatuses && second.status in ProStatuses
    requires first.periodStart != ""
    ensures var u1 := UpsertSubscription(userId, first, profile).1;
            var u2 := UpsertSubscription(userId, second, Some(Stored(u1))).1;
            u2.planStartedAt == u1.planStartedAt && u1.planStartedAt.Some?
    ensures second.status !in ProStatuses ==>
              UpsertSubscription(userId, second, profile).1.planStartedAt.None?
  {}

  /** Webhook events: the three subscription events, a completed checkout,
      and anything else. */
  datatype Event =
    | SubscriptionEvent(kind: string, subscription: Subscription)
    | CheckoutCompleted(sessionSubscription: Option<string>, sessionCustomer: CustomerRef,
                        sessionUserId: Option<string>)
    | OtherEvent(kind: string)

  const SubscriptionEventKinds: set<string> :=
    {"customer.subscription.created", "customer.subscription.updated", "customer.subscription.deleted"}

  /** A write the webhook performs. */
  datatype Effect =
    | Upserted(row: SubscriptionRow, update: ProfileUpdate)
    | LinkedCustomer(userId: string, customerId: Option<string>)

  datatype Reply = Reply(status: int, effects: seq<Effect>)

  /** The environment the handler reads: the profile owning each customer
      id, the stored profiles, and the subscription a checkout session
      refers to as the provider returns it (a missing entry is a failed
      retrieval). */
  datatype World = World(customers: map<string, string>, profiles: map<string, Profile>,
                         retrieved: map<string, Subscription>)

  /** `findUserIdByCustomer`. */
  function FindUserIdByCustomer(w: World, customerId: Option<string>): (r: Option<string>)
    ensures r.Some? ==> Truthy(customerId) && customerId.value in w.customers && r.value == w.customers[customerId.value]
    ensures Truthy(customerId) && customerId.value in w.customers ==> r == Some(w.customers[customerId.value])
  {
    if customerId.Some? && customerId.value != "" && customerId.value in w.customers
    then Some(w.customers[customerId.value]) else None
  }

  /** The user a subscription belongs to: its metadata's user id when
      present (even an empty one), otherwise the owner of its customer. */
  function UserFor(w: World, metadataUserId: Option<string>, sub: Subscription): (r: Option<string>)
    ensures metadataUserId.Some? ==> r == metadataUserId
    ensures metadataUserId.None? ==> r == FindUserIdByCustomer(w, ResolveCustomerId(sub.customer))
  {
    if metadataUserId.Some? then metadataUserId else FindUserIdByCustomer(w, ResolveCustomerId(sub.customer))
  }

  /** Upsert for a subscription when a (truthy) user is found. */
  function UpsertFor(w: World, userId: Option<string>, sub: Subscription): seq<Effect>
  {
    if Truthy(userId) then
      var r := UpsertSubscription(userId.value, sub, if userId.value in w.profiles then Some(w.profiles[userId.value]) else None);
      [Upserted(r.0, r.1)]
    else []
  }

  /** The request handler after the preflight check. An invalid signature
      gets 400 and no writes; the subscription events and a completed
      checkout write as described; every other event gets 200 and no
      writes. A checkout naming a subscription the provider does not
      return fails inside the handler and gets 500. */
  function HandleEvent(signatureValid: bool, event: Event, w: World): (r: Reply)
    ensures !signatureValid ==> r == Reply(400, [])
    ensures signatureValid ==>
              (r.status == 500 <==>
                 (event.CheckoutCompleted? && Truthy(event.sessionSubscription) && event.sessionSubscription.value !in w.retrieved))
    ensures signatureValid ==> r.status == 200 || r.status == 500
    ensures r.status == 500 ==> r.effects == []
    ensures event.OtherEvent? || (event.SubscriptionEvent? && event.kind !in SubscriptionEventKinds) ==> r.effects == []
    ensures |r.effects| <= 1
    ensures forall i :: 0 <= i < |r.effects| ==> r.effects[i].Upserted? ==> r.effects[i].row.userId != ""
  {
    if !signatureValid then Reply(400, [])
    else match event
      case SubscriptionEvent(kind, sub) =>
        if kind in SubscriptionEventKinds
        then Reply(200, UpsertFor(w, UserFor(w, sub.metadataUserId, sub), sub))
        else Reply(200, [])
      case CheckoutCompleted(sessionSub, customer, sessionUserId) =>
        if Truthy(sessionSub) then
          if sessionSub.value in w.retrieved then
            var sub := w.retrieved[sessionSub.value];
            Reply(200, UpsertFor(w, UserFor(w, sessionUserId, sub), sub))
          else Reply(500, [])
        else if CustomerTruthy(customer) && Truthy(sessionUserId)
        then Reply(200, [LinkedCustomer(sessionUserId.value, ResolveCustomerId(customer))])
        else Reply(200, [])
      case OtherEvent(_) => Reply(200, [])
  }

  /** A subscription event writes exactly when a non-empty user id is found,
      and then the profile's plan follows the subscription's status. */
  lemma {:induction false} SubscriptionEventWrites(kind: string, sub: Subscription, w: World)
    requires kind in SubscriptionEventKinds
    ensures var r := HandleEvent(true, SubscriptionEvent(kind, sub), w);
            |r.effects| == 1 <==> Truthy(UserFor(w, sub.metadataUserId, sub))
    ensures var r := HandleEvent(true, SubscriptionEvent(kind, sub), w);
            |r.effects| == 1 ==> r.effects[0].Upserted? && r.effects[0].update.plan == PlanFor(sub.status)
                                 && r.effects[0].row.userId == UserFor(w, sub.metadataUserId, sub).value
  {}

  /** A completed checkout naming a subscription the provider returns
      writes exactly when a non-empty user is found for it, and then
      upserts for that user with the plan of the subscription's status;
      one without a subscription links the session's customer to the
      metadata user exactly when both are present, and writes nothing
      otherwise. */
  lemma {:induction false} CheckoutWrites(sessionSub: Option<string>, customer: CustomerRef, sessionUserId: Option<string>, w: World)
    ensures var r := HandleEvent(true, CheckoutCompleted(sessionSub, customer, sessionUserId), w);
            Truthy(sessionSub) && sessionSub.value in w.retrieved ==>
              var sub := w.retrieved[sessionSub.value];
              r.status == 200 &&
              (|r.effects| == 1 <==> Truthy(UserFor(w, sessionUserId, sub))) &&
              (|r.effects| == 1 ==> r.effects[0].Upserted? && r.effects[0].update.plan == PlanFor(sub.status)
                                    && r.effects[0].row.userId == UserFor(w, sessionUserId, sub).value)
    ensures var r := HandleEvent(true, CheckoutCompleted(sessionSub, customer, sessionUserId), w);
            !Truthy(sessionSub) ==>
              r.status == 200 &&
              (CustomerTruthy(customer) && Truthy(sessionUserId) ==>
                 r.effects == [LinkedCustomer(sessionUserId.value, ResolveCustomerId(customer))]) &&
              (!(CustomerTruthy(customer) && Truthy(sessionUserId)) ==> r.effects == [])
  {}

  /** An empty user id in the metadata is used as it is (it is not
      replaced by the customer's owner), so the event writes nothing. */
  lemma {:induction false} EmptyMetadataUserBlocksLookup(kind: string, sub: Subscription, w: World)
    requires kind in SubscriptionEventKinds
    requires sub.metadataUserId == Some("")
    ensures HandleEvent(true, SubscriptionEvent(kind, sub), w).effects == []
  {}
}
