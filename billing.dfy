/** The billing service: subscription plans and their limits, payments for a
    plan (the demo payment provider only), the payment provider's webhook and
    the demo confirmation that imitates it. Amounts are in kopecks; the clock
    and the random identifiers are parameters. */
module Billing {
  import opened Common
  import opened Entities
  import opened Store
  import Tables

  // ---------------------------------------------------------------------
  // Plans

  /** `PLAN_PRICES`: a plan name's price, none for a name it does not list.
      The JavaScript object would also answer inherited names such as
      `toString`; callers only ever pass a `Plan` enum name, so those
      lookups do not happen. */
  function PlanPrice(plan: string): (r: Option<int>)
    ensures r.Some? <==> plan == "FREE" || plan == "PRO"
    ensures plan == "FREE" ==> r == Some(0)
    ensures plan == "PRO" ==> r == Some(499000)
  {
    if plan == "FREE" then Some(0)
    else if plan == "PRO" then Some(499000)
    else None
  }

  datatype Limits = Limits(maxFunnels: int, maxLeadsPerMonth: int, features: seq<string>)

  /** -1 is "unlimited". */
  const Unlimited := -1

  /** `getPlanLimits`: PRO is unlimited with three features; FREE and any
      other name get one funnel, 100 leads a month and no features. */
  function PlanLimits(plan: string): (l: Limits)
    ensures plan == "PRO" <==> l.maxFunnels == Unlimited
    ensures plan == "PRO" ==> l == Limits(Unlimited, Unlimited, ["analytics", "priority_support", "custom_domain"])
    ensures plan != "PRO" ==> l == Limits(1, 100, [])
  {
    if plan == "PRO" then Limits(Unlimited, Unlimited, ["analytics", "priority_support", "custom_domain"])
    else Limits(1, 100, [])
  }

  /** Every plan but PRO is held to the FREE limits. */
  lemma UnknownPlanIsFree(plan: string)
    requires plan != "PRO"
    ensures PlanLimits(plan) == PlanLimits("FREE")
  {
  }

  /** `getSubscription`: the user's row, created as FREE/ACTIVE when there is
      none, with the limits of its plan. A second call finds the row the
      first one made and changes nothing. */
  method GetSubscription(db: Db, userId: string) returns (sub: Subscription, limits: Limits)
    requires db.Valid()
    modifies db
    ensures db.Valid() && OnlyBillingChanged(db) && db.payments == old(db.payments)
    ensures userId in old(db.subscriptions) ==> sub == old(db.subscriptions)[userId] && db.subscriptions == old(db.subscriptions)
    ensures userId !in old(db.subscriptions) ==>
      sub == Subscription(userId, Free, SubscriptionStatus.Active, None) && db.subscriptions == old(db.subscriptions)[userId := sub]
    ensures limits == PlanLimits(sub.plan.Name())
  {
    if userId in db.subscriptions {
      sub := db.subscriptions[userId];
    } else {
      sub := Subscription(userId, Free, SubscriptionStatus.Active, None);
      db.subscriptions := db.subscriptions[userId := sub];
    }
    limits := PlanLimits(sub.plan.Name());
  }

  // ---------------------------------------------------------------------
  // Payments

  datatype CreatePaymentDto = CreatePaymentDto(amount: int, description: string, funnelId: Option<string>, returnUrl: Option<string>)

  /** `randomUUID().slice(0, 8)`. */
  function Slice8(s: string): (r: string)
    ensures |r| == (if |s| < 8 then |s| else 8) && IsPrefix(r, s)
  {
    if |s| >= 8 then s[..8] else s
  }

  /** The order id of a payment made at `now` with the random `uuid`. */
  function OrderId(now: int, uuid: string): string {
    "order_" + IntToString(now) + "_" + Slice8(uuid)
  }

  /** The demo payment page of an order. */
  function DemoUrl(orderId: string, amount: int): string {
    "https://demo.yokassa.ru/pay/" + orderId + "?amount=" + IntToString(amount)
  }

  /** Order ids made at different instants differ, whatever the random part. */
  lemma OrderIdsOfInstantsDiffer(now: int, now': int, uuid: string, uuid': string)
    requires now != now'
    ensures OrderId(now, uuid) != OrderId(now', uuid')
  {
    var a, b := IntToString(now), IntToString(now');
    if OrderId(now, uuid) == OrderId(now', uuid') {
      var o := OrderId(now, uuid);
      assert o == "order_" + (a + "_" + Slice8(uuid));
      assert o == "order_" + (b + "_" + Slice8(uuid'));
      assert o[6..] == a + "_" + Slice8(uuid);
      assert o[6..] == b + "_" + Slice8(uuid');
      UnderscoreFreePrefix(a, b, Slice8(uuid), Slice8(uuid'));
      IntToStringInjective(now, now');
    }
  }

  /** Two strings without `_` followed by `_` and anything are equal only if
      the two strings are. */
  lemma {:induction false} UnderscoreFreePrefix(a: string, b: string, x: string, y: string)
    requires forall i :: 0 <= i < |a| ==> a[i] != '_'
    requires forall i :: 0 <= i < |b| ==> b[i] != '_'
    requires a + "_" + x == b + "_" + y
    ensures a == b
    decreases |a|
  {
    if a == [] || b == [] {
      assert (a + "_" + x)[0] == (b + "_" + y)[0];
    } else {
      assert (a + "_" + x)[0] == a[0] && (b + "_" + y)[0] == b[0];
      assert (a + "_" + x)[1..] == a[1..] + "_" + x;
      assert (b + "_" + y)[1..] == b[1..] + "_" + y;
      UnderscoreFreePrefix(a[1..], b[1..], x, y);
    }
  }

  /** No row of the table already has order id `orderId`. */
  ghost predicate FreshOrderId(payments: map<string, Payment>, orderId: string) {
    forall k :: k in payments ==> payments[k].orderId != orderId
  }

  /** `createPayment` in demo mode: one PENDING payment under a new order id,
      whose confirmation page is the demo page of that order and amount. */
  method CreatePayment(db: Db, userId: string, dto: CreatePaymentDto, now: int, uuid: string, newId: string)
    returns (p: Payment)
    requires db.Valid() && newId !in db.payments && FreshOrderId(db.payments, OrderId(now, uuid))
    modifies db
    ensures db.Valid() && OnlyBillingChanged(db) && db.subscriptions == old(db.subscriptions)
    ensures p == Payment.Payment(newId, OrderId(now, uuid), userId, dto.amount, Some(dto.description), dto.funnelId,
                         PaymentStatus.Pending, None, Some(DemoUrl(OrderId(now, uuid), dto.amount)), now)
    ensures db.payments == old(db.payments)[newId := p]
  {
    var orderId := OrderId(now, uuid);
    p := Payment.Payment(newId, orderId, userId, dto.amount, Some(dto.description), dto.funnelId,
                 PaymentStatus.Pending, None, Some(DemoUrl(orderId, dto.amount)), now);
    db.payments := db.payments[newId := p];
  }

  datatype SubscribeResult =
    | SwitchedToFree(subscription: Subscription)
    | PaymentStarted(paymentId: string, paymentUrl: Option<string>, amount: int)

  const SubscriptionWord := "Подписка"

  /** `subscribe`: FREE is set at once (no payment, expiry cleared); any other
      plan needs a payment of its price, described as a subscription to it.
      A plan without a price is refused before anything is written. */
  method Subscribe(db: Db, userId: string, plan: Plan, returnUrl: Option<string>, now: int, uuid: string, newId: string)
    returns (r: Result<SubscribeResult>)
    requires db.Valid() && newId !in db.payments && FreshOrderId(db.payments, OrderId(now, uuid))
    modifies db
    ensures db.Valid() && OnlyBillingChanged(db)
    ensures plan == Free ==>
      && r == Ok(SwitchedToFree(Subscription(userId, Free, SubscriptionStatus.Active, None)))
      && db.subscriptions == old(db.subscriptions)[userId := r.value.subscription]
      && db.payments == old(db.payments)
    ensures plan != Free && !TruthyNum(PlanPrice(plan.Name())) ==>
      r == Err(BadRequest("Invalid plan")) && db.payments == old(db.payments) && db.subscriptions == old(db.subscriptions)
    ensures plan != Free && TruthyNum(PlanPrice(plan.Name())) ==>
      var amount := PlanPrice(plan.Name()).value;
      var p := Payment.Payment(newId, OrderId(now, uuid), userId, amount, Some("Подписка BotVoronka " + plan.Name()), None,
                       PaymentStatus.Pending, None, Some(DemoUrl(OrderId(now, uuid), amount)), now);
      && r == Ok(PaymentStarted(newId, p.confirmationUrl, amount))
      && db.payments == old(db.payments)[newId := p]
      && db.subscriptions == old(db.subscriptions)
  {
    if plan == Free {
      var sub := Subscription(userId, Free, SubscriptionStatus.Active, None);
      db.subscriptions := db.subscriptions[userId := sub];
      return Ok(SwitchedToFree(sub));
    }
    var amount := PlanPrice(plan.Name());
    if !TruthyNum(amount) {
      return Err(BadRequest("Invalid plan"));
    }
    var p := CreatePayment(db, userId, CreatePaymentDto(amount.value, "Подписка BotVoronka " + plan.Name(), None, returnUrl),
                           now, uuid, newId);
    return Ok(PaymentStarted(p.id, p.confirmationUrl, p.amount));
  }

  /** The "Invalid plan" refusal cannot happen for a plan the DTO admits: every
      plan but FREE has a non-zero price. */
  lemma PaidPlansArePriced(plan: Plan)
    requires plan != Free
    ensures TruthyNum(PlanPrice(plan.Name()))
  {
  }

  /** A subscription payment's description names the subscription. */
  lemma SubscriptionPaymentMentionsSubscription(plan: Plan)
    ensures Contains("Подписка BotVoronka " + plan.Name(), SubscriptionWord)
  {
    var d := "Подписка BotVoronka " + plan.Name();
    assert OccursAt(d, SubscriptionWord, 0) by {
      assert d[..|SubscriptionWord|] == SubscriptionWord;
    }
    ContainsAt(d, SubscriptionWord);
  }

  // ---------------------------------------------------------------------
  // The webhook

  /** The status a payment takes on `event`: the four events the provider
      reports set their status, any other event keeps the current one. */
  function NextStatus(event: string, current: PaymentStatus): (s: PaymentStatus)
    ensures event == "payment.succeeded" ==> s == PaymentStatus.Succeeded
    ensures event == "payment.canceled" ==> s == PaymentStatus.Cancelled
    ensures event == "payment.waiting_for_capture" ==> s == PaymentStatus.WaitingForCapture
    ensures event == "refund.succeeded" ==> s == PaymentStatus.Refunded
  {
    if event == "payment.succeeded" then PaymentStatus.Succeeded
    else if event == "payment.canceled" then PaymentStatus.Cancelled
    else if event == "payment.waiting_for_capture" then PaymentStatus.WaitingForCapture
    else if event == "refund.succeeded" then PaymentStatus.Refunded
    else current
  }

  predicate KnownEvent(event: string) {
    event in ["payment.succeeded", "payment.canceled", "payment.waiting_for_capture", "refund.succeeded"]
  }

  /** An event leaves every status as it is exactly when it is not one of the four. */
  lemma NextStatusKeepsIffUnknown(event: string)
    ensures (forall s :: NextStatus(event, s) == s) <==> !KnownEvent(event)
  {
    if KnownEvent(event) {
      var s := if event == "payment.canceled" then PaymentStatus.Pending else PaymentStatus.Cancelled;
      assert NextStatus(event, s) != s;
    }
  }

  /** Delivering the same event twice leaves the status where the first delivery put it. */
  lemma NextStatusIdempotent(event: string, s: PaymentStatus)
    ensures NextStatus(event, NextStatus(event, s)) == NextStatus(event, s)
  {
  }

  const SubscriptionDays := 30
  const SubscriptionMillis := SubscriptionDays * 24 * 60 * 60 * 1000

  /** The payment row under `oid`, if any (at most one, the order id being unique). */
  ghost function OrderKey(payments: map<string, Payment>, oid: string): (r: Option<string>)
    ensures r.Some? ==> r.value in payments && payments[r.value].orderId == oid
    ensures r.None? <==> FreshOrderId(payments, oid)
  {
    if exists k :: k in payments && payments[k].orderId == oid then
      var k :| k in payments && payments[k].orderId == oid; Some(k)
    else None
  }

  /** The row an order id finds is the one that has it. */
  lemma OrderKeyFinds(payments: map<string, Payment>, k: string)
    requires OrderIdsUnique(payments) && k in payments
    ensures OrderKey(payments, payments[k].orderId) == Some(k)
  {
    var r := OrderKey(payments, payments[k].orderId);
    assert !FreshOrderId(payments, payments[k].orderId);
    assert payments[r.value].orderId == payments[k].orderId;
  }

  /** The payment after the webhook: its new status, and the method's type
      when the event carries one (an absent one leaves the column). */
  function Settle(p: Payment, event: string, methodType: Option<string>): (q: Payment)
    ensures q.status == NextStatus(event, p.status)
    ensures q.paymentMethod == (if methodType.Some? then methodType else p.paymentMethod)
    ensures q.(status := p.status, paymentMethod := p.paymentMethod) == p
  {
    p.(status := NextStatus(event, p.status), paymentMethod := if methodType.Some? then methodType else p.paymentMethod)
  }

  /** A settled payment activates PRO when it ends SUCCEEDED and its
      description names a subscription, whatever the event was. */
  predicate Activates(p: Payment) {
    p.status == PaymentStatus.Succeeded && p.description.Some? && Contains(p.description.value, SubscriptionWord)
  }

  datatype WebhookReply = WebhookReply(received: bool, status: Option<PaymentStatus>)

  /** What the webhook does to the two billing tables, as one step from the
      old tables: nothing when the object id is missing or unknown; otherwise
      that payment settled, and PRO/ACTIVE for thirty days from `now` when it
      activates. */
  ghost function WebhookEffect(payments: map<string, Payment>, subscriptions: map<string, Subscription>,
                               event: string, objectId: Option<string>, methodType: Option<string>, now: int)
    : (map<string, Payment>, map<string, Subscription>, WebhookReply)
  {
    if !Truthy(objectId) || OrderKey(payments, objectId.value).None? then
      (payments, subscriptions, WebhookReply(true, None))
    else
      var k := OrderKey(payments, objectId.value).value;
      var p := Settle(payments[k], event, methodType);
      var subs := if Activates(p) then subscriptions[p.userId := Subscription(p.userId, Pro, SubscriptionStatus.Active, Some(now + SubscriptionMillis))]
                  else subscriptions;
      (payments[k := p], subs, WebhookReply(true, Some(p.status)))
  }

  /** Rewriting one payment's status and method keeps every payment filed
      under its id and every order id on one payment. */
  lemma SettleKeepsKeys(payments: map<string, Payment>, k: string, p: Payment)
    requires OrderIdsUnique(payments) && (forall j :: j in payments ==> payments[j].id == j)
    requires k in payments && p.id == payments[k].id && p.orderId == payments[k].orderId
    ensures OrderIdsUnique(payments[k := p])
    ensures forall j :: j in payments ==> payments[k := p][j].id == j
  {
  }

  /** The writes of `handleWebhook` once it found payment `k`: the payment
      settled, then PRO/ACTIVE for thirty days from `now` when it activates. */
  method ApplySettlement(db: Db, k: string, event: string, methodType: Option<string>, now: int)
    returns (reply: WebhookReply)
    requires db.Valid() && k in db.payments
    modifies db
    ensures db.Valid() && OnlyBillingChanged(db)
    ensures var p := Settle(old(db.payments)[k], event, methodType);
      && db.payments == old(db.payments)[k := p]
      && db.subscriptions == (if Activates(p) then old(db.subscriptions)[p.userId := Subscription(p.userId, Pro, SubscriptionStatus.Active, Some(now + SubscriptionMillis))]
                              else old(db.subscriptions))
      && reply == WebhookReply(true, Some(p.status))
  {
    var payments, subscriptions := db.payments, db.subscriptions;
    var p := Settle(payments[k], event, methodType);
    SettleKeepsKeys(payments, k, p);
    payments := payments[k := p];
    if Activates(p) {
      subscriptions := subscriptions[p.userId := Subscription(p.userId, Pro, SubscriptionStatus.Active, Some(now + SubscriptionMillis))];
    }
    db.payments, db.subscriptions := payments, subscriptions;
    BillingWriteKeepsValid(db);
    reply := WebhookReply(true, Some(p.status));
  }

  /** `handleWebhook`. */
  method HandleWebhook(db: Db, event: string, objectId: Option<string>, methodType: Option<string>, now: int)
    returns (reply: WebhookReply)
    requires db.Valid()
    modifies db
    ensures db.Valid() && OnlyBillingChanged(db)
    ensures (db.payments, db.subscriptions, reply) == WebhookEffect(old(db.payments), old(db.subscriptions), event, objectId, methodType, now)
  {
    if !Truthy(objectId) {
      return WebhookReply(true, None);
    }
    var oid := objectId.value;
    if !exists k :: k in db.payments && db.payments[k].orderId == oid {
      return WebhookReply(true, None);
    }
    var k :| k in db.payments && db.payments[k].orderId == oid;
    assert k == OrderKey(db.payments, oid).value;
    reply := ApplySettlement(db, k, event, methodType, now);
  }

  /** The webhook touches one payment only, and only its status and method. */
  lemma WebhookTouchesOnePayment(payments: map<string, Payment>, subscriptions: map<string, Subscription>,
                                 event: string, oid: string, methodType: Option<string>, now: int)
    requires OrderIdsUnique(payments)
    ensures var (ps, _, _) := WebhookEffect(payments, subscriptions, event, Some(oid), methodType, now);
      && ps.Keys == payments.Keys
      && (forall k :: k in payments && payments[k].orderId != oid ==> ps[k] == payments[k])
      && (forall k :: k in payments ==> ps[k].(status := payments[k].status, paymentMethod := payments[k].paymentMethod) == payments[k])
  {
  }

  /** The same webhook delivered twice at the same instant leaves the tables
      as one delivery did. */
  lemma WebhookIdempotent(payments: map<string, Payment>, subscriptions: map<string, Subscription>,
                          event: string, objectId: Option<string>, methodType: Option<string>, now: int)
    requires OrderIdsUnique(payments)
    ensures var (ps, ss, _) := WebhookEffect(payments, subscriptions, event, objectId, methodType, now);
      var (ps', ss', _) := WebhookEffect(ps, ss, event, objectId, methodType, now);
      ps' == ps && ss' == ss
  {
    var (ps, ss, _) := WebhookEffect(payments, subscriptions, event, objectId, methodType, now);
    if Truthy(objectId) && OrderKey(payments, objectId.value).Some? {
      var oid := objectId.value;
      var k := OrderKey(payments, oid).value;
      assert ps == payments[k := Settle(payments[k], event, methodType)];
      assert OrderIdsUnique(ps);
      OrderKeyFinds(ps, k);
      NextStatusIdempotent(event, payments[k].status);
    }
  }

  /** The activation keys on the resulting status: a subscription payment
      already SUCCEEDED re-activates PRO on any event the provider sends
      that is not one of the four. */
  lemma AnyEventReactivatesSucceeded(payments: map<string, Payment>, subscriptions: map<string, Subscription>,
                                     k: string, event: string, methodType: Option<string>, now: int)
    requires OrderIdsUnique(payments) && k in payments && payments[k].orderId != ""
    requires payments[k].status == PaymentStatus.Succeeded && !KnownEvent(event)
    requires payments[k].description.Some? && Contains(payments[k].description.value, SubscriptionWord)
    ensures var (_, ss, _) := WebhookEffect(payments, subscriptions, event, Some(payments[k].orderId), methodType, now);
      ss == subscriptions[payments[k].userId := Subscription(payments[k].userId, Pro, SubscriptionStatus.Active, Some(now + SubscriptionMillis))]
  {
    OrderKeyFinds(payments, k);
  }

  /** `confirmPaymentDemo`: NotFound unless the payment exists and is the
      user's; then exactly a `payment.succeeded` webhook for its order with
      method "demo". */
  method ConfirmPaymentDemo(db: Db, paymentId: string, userId: string, now: int) returns (r: Result<WebhookReply>)
    requires db.Valid()
    modifies db
    ensures db.Valid() && OnlyBillingChanged(db)
    ensures r.Err? <==> paymentId !in old(db.payments) || old(db.payments)[paymentId].userId != userId
    ensures r.Err? ==> r.error == NotFound("Payment not found") && db.payments == old(db.payments) && db.subscriptions == old(db.subscriptions)
    ensures r.Ok? ==>
      (db.payments, db.subscriptions, r.value) == WebhookEffect(old(db.payments), old(db.subscriptions), "payment.succeeded", Some(old(db.payments)[paymentId].orderId), Some("demo"), now)
  {
    if paymentId !in db.payments || db.payments[paymentId].userId != userId {
      return Err(NotFound("Payment not found"));
    }
    var reply := HandleWebhook(db, "payment.succeeded", Some(db.payments[paymentId].orderId), Some("demo"), now);
    return Ok(reply);
  }

  /** A confirmed demo payment whose order id is set ends SUCCEEDED with method "demo". */
  lemma ConfirmSettlesPayment(payments: map<string, Payment>, subscriptions: map<string, Subscription>, k: string, now: int)
    requires OrderIdsUnique(payments) && k in payments && payments[k].orderId != ""
    ensures var (ps, _, reply) := WebhookEffect(payments, subscriptions, "payment.succeeded", Some(payments[k].orderId), Some("demo"), now);
      && ps[k].status == PaymentStatus.Succeeded && ps[k].paymentMethod == Some("demo")
      && reply == WebhookReply(true, Some(PaymentStatus.Succeeded))
  {
    OrderKeyFinds(payments, k);
  }

  // ---------------------------------------------------------------------
  // History

  const HistoryLimit := 50

  /** Taking the first rows of the user's payments listed newest first
      leaves out only payments no newer than any taken, and leaves out
      none when fewer than fifty are taken. */
  lemma FirstOfNewestFirst(payments: map<string, Payment>, userId: string, ids: seq<string>, rows: seq<Payment>)
    requires forall id :: id in ids <==> id in payments && payments[id].userId == userId
    requires forall i, j :: 0 <= i < j < |ids| ==> payments[ids[i]].createdAt >= payments[ids[j]].createdAt
    requires |rows| <= |ids| && (|rows| < HistoryLimit ==> |rows| == |ids|)
    requires forall i :: 0 <= i < |rows| ==> rows[i] == payments[ids[i]]
    ensures |rows| < HistoryLimit ==> forall p :: p in payments.Values && p.userId == userId ==> p in rows
    ensures forall p :: p in payments.Values && p.userId == userId && p !in rows ==>
              forall i :: 0 <= i < |rows| ==> rows[i].createdAt >= p.createdAt
  {
    forall p | p in payments.Values && p.userId == userId
      ensures p !in rows ==> forall j :: 0 <= j < |rows| ==> rows[j].createdAt >= p.createdAt
      ensures |rows| < HistoryLimit ==> p in rows
    {
      var k :| k in payments && payments[k] == p;
      var i :| 0 <= i < |ids| && ids[i] == k;
      if i < |rows| {
        assert rows[i] == p;
      }
    }
  }

  /** `getPayments`: the user's fifty newest payments, newest first; fewer
      than fifty means all of them. */
  method GetPayments(db: Db, userId: string) returns (rows: seq<Payment>)
    requires db.Valid()
    ensures |rows| <= HistoryLimit
    ensures forall i :: 0 <= i < |rows| ==> rows[i] in db.payments.Values && rows[i].userId == userId
    ensures forall i, j :: 0 <= i < j < |rows| ==> rows[i].id != rows[j].id && rows[i].createdAt >= rows[j].createdAt
    ensures |rows| < HistoryLimit ==> forall p :: p in db.payments.Values && p.userId == userId ==> p in rows
    ensures forall p :: p in db.payments.Values && p.userId == userId && p !in rows ==>
              forall i :: 0 <= i < |rows| ==> rows[i].createdAt >= p.createdAt
  {
    var ids := Tables.FindMany(db.payments, (p: Payment) => p.userId == userId, (p: Payment) => -p.createdAt);
    var all := Tables.Rows(db.payments, ids);
    rows := Tables.SkipTake(all, 0, HistoryLimit);
    assert forall i, j :: 0 <= i < j < |ids| ==> db.payments[ids[i]].createdAt >= db.payments[ids[j]].createdAt;
    FirstOfNewestFirst(db.payments, userId, ids, rows);
  }
}
