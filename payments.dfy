/**
 * The payment routes: create a payment for an order, read (and reconcile) it, simulate a status,
 * and the gateway webhook. Each handler is a method on the shared database, specified by a step
 * function from the old orders to the reply and the new orders.
 */
module PaymentRoutes {
  import opened Wrappers
  import opened Strings
  import opened Db
  import Utils
  import G = PaymentGateway

  /** The JSON answered by the create and read routes. */
  datatype PaymentReply = PaymentReply(id: string, status: string, qrCode: Option<string>,
                                       pixKey: Option<string>, isMock: bool)

  function ReplyOf(p: G.PaymentResult, env: G.Env): PaymentReply {
    PaymentReply(p.id, p.status, p.qrCode, p.pixKey, G.ShouldUseMock(env))
  }

  /** The payment description sent to the gateway. */
  function Description(orderId: string): string {
    "Pedido " + Take(orderId, 8)
  }

  /** Some order holds the payment id. */
  predicate HoldsPayment(orders: map<string, Order>, paymentId: string) {
    exists k :: k in orders && orders[k].paymentId == Some(paymentId)
  }

  // ---------------------------------------------------------------- POST /orders/:id/payment

  /** The reply and new orders of creating a payment for `orderId`. */
  function CreatePaymentStep(orders: map<string, Order>, orderId: string, env: G.Env, uuid: string,
                             sdk: (int, string) -> Result<G.PaymentResult>): (out: (Reply<PaymentReply>, map<string, Order>))
    ensures orderId !in orders ==> out == (Fail(404, "Order not found"), orders)
    ensures orderId in orders && Truthy(orders[orderId].paymentId) ==>
      out == (Fail(400, "Payment already created for this order"), orders)
    ensures out.0.Fail? ==> out.1 == orders
    ensures orderId in orders && !Truthy(orders[orderId].paymentId) ==>
      var answer := G.CreatePayment(env, Utils.OrderSubtotal(orders[orderId].items), Description(orderId), uuid, sdk);
      && (out.0.Ok? <==> answer.Success?)
      && (out.0.Ok? ==> out.0.body == ReplyOf(answer.value, env))
      && (answer.Failure? ==> out == (Fail(500, "Failed to create payment"), orders))
    ensures out.0.Ok? ==>
      && orderId in orders
      && !Truthy(orders[orderId].paymentId)
      && out.1 == orders[orderId := orders[orderId].(paymentId := Some(out.0.body.id), paymentStatus := Some(out.0.body.status))]
      && out.0.body.isMock == G.ShouldUseMock(env)
  {
    if orderId !in orders then (Fail(404, "Order not found"), orders)
    else
      var order := orders[orderId];
      if Truthy(order.paymentId) then (Fail(400, "Payment already created for this order"), orders)
      else
        match G.CreatePayment(env, Utils.OrderSubtotal(order.items), Description(orderId), uuid, sdk)
        case Failure(_) => (Fail(500, "Failed to create payment"), orders)
        case Success(p) =>
          (Ok(ReplyOf(p, env)), orders[orderId := order.(paymentId := Some(p.id), paymentStatus := Some(p.status))])
  }

  /** The real gateway is charged the sum of price times quantity over the order's items. */
  lemma GatewayChargedOrderSubtotal(orders: map<string, Order>, orderId: string, env: G.Env, uuid: string,
                                    sdk: (int, string) -> Result<G.PaymentResult>)
    requires orderId in orders && !Truthy(orders[orderId].paymentId) && !G.ShouldUseMock(env)
    ensures var answer := sdk(Utils.OrderSubtotal(orders[orderId].items), Description(orderId));
      var out := CreatePaymentStep(orders, orderId, env, uuid, sdk);
      && (out.0.Ok? <==> answer.Success?)
      && (out.0.Ok? ==> out.0.body.id == answer.value.id && out.0.body.status == answer.value.status)
  {
  }

  /** Once a payment with a non-empty id is created, a second request is refused and changes nothing. */
  lemma PaymentCreatedAtMostOnce(orders: map<string, Order>, orderId: string, env: G.Env, uuid: string,
                                 sdk: (int, string) -> Result<G.PaymentResult>,
                                 env2: G.Env, uuid2: string, sdk2: (int, string) -> Result<G.PaymentResult>)
    requires var out := CreatePaymentStep(orders, orderId, env, uuid, sdk); out.0.Ok? && out.0.body.id != ""
    ensures var after := CreatePaymentStep(orders, orderId, env, uuid, sdk).1;
      CreatePaymentStep(after, orderId, env2, uuid2, sdk2) == (Fail(400, "Payment already created for this order"), after)
  {
  }

  /** A payment id not held by any order keeps payment ids unique. */
  lemma CreatePaymentKeepsIdsUnique(orders: map<string, Order>, orderId: string, env: G.Env, uuid: string,
                                    sdk: (int, string) -> Result<G.PaymentResult>)
    requires PaymentIdsUnique(orders)
    requires var out := CreatePaymentStep(orders, orderId, env, uuid, sdk);
      out.0.Ok? ==> !HoldsPayment(orders, out.0.body.id)
    ensures PaymentIdsUnique(CreatePaymentStep(orders, orderId, env, uuid, sdk).1)
  {
    var out := CreatePaymentStep(orders, orderId, env, uuid, sdk);
    if out.0.Ok? {
      var r := out.1;
      var id := out.0.body.id;
      assert forall b :: b in orders ==> orders[b].paymentId != Some(id);
      assert forall b :: b in r && b != orderId ==> r[b] == orders[b];
      assert r[orderId].paymentId == Some(id);
    }
  }

  method CreatePaymentHandler(db: Database, orderId: string, env: G.Env, uuid: string,
                              sdk: (int, string) -> Result<G.PaymentResult>) returns (reply: Reply<PaymentReply>)
    requires db.Valid()
    modifies db
    ensures db.Valid()
    ensures (reply, db.orders) == CreatePaymentStep(old(db.orders), orderId, env, uuid, sdk)
    ensures db.products == old(db.products) && db.admins == old(db.admins)
  {
    if orderId !in db.orders {
      return Fail(404, "Order not found");
    }
    var order := db.orders[orderId];
    if Truthy(order.paymentId) {
      return Fail(400, "Payment already created for this order");
    }
    var total := Utils.OrderSubtotal(order.items);
    var payment := G.CreatePayment(env, total, Description(orderId), uuid, sdk);
    if payment.Failure? {
      return Fail(500, "Failed to create payment");
    }
    var p := payment.value;
    db.orders := db.orders[orderId := order.(paymentId := Some(p.id), paymentStatus := Some(p.status))];
    reply := Ok(ReplyOf(p, env));
  }

  // ---------------------------------------------------------------- GET /orders/:id/payment

  /** Store the gateway's status, writing only when it differs from the stored one. */
  function Reconciled(orders: map<string, Order>, orderId: string, status: string): map<string, Order>
    requires orderId in orders
  {
    if Some(status) != orders[orderId].paymentStatus
    then orders[orderId := orders[orderId].(paymentStatus := Some(status))]
    else orders
  }

  /** Reconciliation writes exactly when the status changed, only the payment status of that order. */
  lemma ReconcileWritesOnlyOnChange(orders: map<string, Order>, orderId: string, status: string)
    requires orderId in orders
    ensures Reconciled(orders, orderId, status) == orders <==> orders[orderId].paymentStatus == Some(status)
    ensures Reconciled(orders, orderId, status).Keys == orders.Keys
    ensures Reconciled(orders, orderId, status)[orderId] == orders[orderId].(paymentStatus := Some(status))
    ensures forall k :: k in orders && k != orderId ==> Reconciled(orders, orderId, status)[k] == orders[k]
  {
    if orders[orderId].paymentStatus != Some(status) {
      assert Reconciled(orders, orderId, status)[orderId].paymentStatus != orders[orderId].paymentStatus;
    }
  }

  /** The reply and new orders of reading the payment of `orderId`. */
  function GetPaymentStep(orders: map<string, Order>, orderId: string, env: G.Env,
                          sdk: string -> Result<G.PaymentResult>): (out: (Reply<PaymentReply>, map<string, Order>))
    ensures orderId !in orders ==> out == (Fail(404, "Order not found"), orders)
    ensures orderId in orders && !Truthy(orders[orderId].paymentId) ==>
      out == (Fail(404, "Payment not found for this order"), orders)
    ensures out.0.Fail? ==> out.1 == orders
    ensures orderId in orders && Truthy(orders[orderId].paymentId) ==>
      var answer := G.GetPayment(env, orders[orderId].paymentId.value, sdk);
      && (out.0.Ok? <==> answer.Success?)
      && (out.0.Ok? ==> out.0.body == ReplyOf(answer.value, env))
      && (answer.Failure? ==> out == (Fail(500, "Failed to fetch payment"), orders))
    ensures out.0.Ok? ==> orderId in orders && out.1 == Reconciled(orders, orderId, out.0.body.status)
    ensures out.1.Keys == orders.Keys
    ensures forall k :: k in orders ==> out.1[k].status == orders[k].status && out.1[k].paymentId == orders[k].paymentId
  {
    if orderId !in orders then (Fail(404, "Order not found"), orders)
    else
      var order := orders[orderId];
      if !Truthy(order.paymentId) then (Fail(404, "Payment not found for this order"), orders)
      else
        match G.GetPayment(env, order.paymentId.value, sdk)
        case Failure(_) => (Fail(500, "Failed to fetch payment"), orders)
        case Success(p) => (Ok(ReplyOf(p, env)), Reconciled(orders, orderId, p.status))
  }

  /** Reading twice against the same gateway leaves the orders as reading once. */
  lemma GetPaymentIdempotent(orders: map<string, Order>, orderId: string, env: G.Env,
                             sdk: string -> Result<G.PaymentResult>)
    ensures var once := GetPaymentStep(orders, orderId, env, sdk).1;
      GetPaymentStep(once, orderId, env, sdk).1 == once
  {
    var once := GetPaymentStep(orders, orderId, env, sdk).1;
    if orderId in orders && Truthy(orders[orderId].paymentId) {
      var answer := G.GetPayment(env, orders[orderId].paymentId.value, sdk);
      if answer.Success? {
        assert once[orderId].paymentStatus == Some(answer.value.status);
      }
    }
  }

  /** Reading a payment never moves a payment id, so payment ids stay unique. */
  lemma GetPaymentKeepsIdsUnique(orders: map<string, Order>, orderId: string, env: G.Env,
                                 sdk: string -> Result<G.PaymentResult>)
    requires PaymentIdsUnique(orders)
    ensures PaymentIdsUnique(GetPaymentStep(orders, orderId, env, sdk).1)
  {
    var r := GetPaymentStep(orders, orderId, env, sdk).1;
    assert forall k :: k in r ==> r[k].paymentId == orders[k].paymentId;
  }

  method GetPaymentHandler(db: Database, orderId: string, env: G.Env,
                           sdk: string -> Result<G.PaymentResult>) returns (reply: Reply<PaymentReply>)
    requires db.Valid()
    modifies db
    ensures db.Valid()
    ensures (reply, db.orders) == GetPaymentStep(old(db.orders), orderId, env, sdk)
    ensures db.products == old(db.products) && db.admins == old(db.admins)
  {
    if orderId !in db.orders {
      return Fail(404, "Order not found");
    }
    var order := db.orders[orderId];
    if !Truthy(order.paymentId) {
      return Fail(404, "Payment not found for this order");
    }
    var payment := G.GetPayment(env, order.paymentId.value, sdk);
    if payment.Failure? {
      return Fail(500, "Failed to fetch payment");
    }
    var p := payment.value;
    if Some(p.status) != order.paymentStatus {
      db.orders := db.orders[orderId := order.(paymentStatus := Some(p.status))];
    }
    reply := Ok(ReplyOf(p, env));
  }

  // ---------------------------------------------------------------- POST /orders/:id/payment/simulate

  /** A simulated status: `paid` also moves the order to PREPARANDO. */
  function Simulated(order: Order, status: string): (r: Order)
    ensures r.paymentStatus == Some(status)
    ensures r.status == if status == G.Paid then Preparando else order.status
    ensures r == order.(paymentStatus := r.paymentStatus, status := r.status)
  {
    if status == G.Paid then order.(paymentStatus := Some(status), status := Preparando)
    else order.(paymentStatus := Some(status))
  }

  /** The reply (the echoed status) and new orders of simulating `status` on `orderId`. */
  function SimulateStep(orders: map<string, Order>, orderId: string, status: string): (out: (Reply<string>, map<string, Order>))
    ensures !G.IsInternalStatus(status) ==> out == (Fail(400, "Invalid status"), orders)
    ensures G.IsInternalStatus(status) && orderId !in orders ==> out == (Fail(404, "Order not found"), orders)
    ensures G.IsInternalStatus(status) && orderId in orders && !Truthy(orders[orderId].paymentId) ==>
      out == (Fail(404, "Payment not found for this order"), orders)
    ensures out.0.Fail? ==> out.1 == orders
    ensures out.0.Ok? <==> G.IsInternalStatus(status) && orderId in orders && Truthy(orders[orderId].paymentId)
    ensures out.0.Ok? ==> out.0.body == status && out.1 == orders[orderId := Simulated(orders[orderId], status)]
  {
    if status !in [G.Pending, G.Paid, G.Expired] then (Fail(400, "Invalid status"), orders)
    else if orderId !in orders then (Fail(404, "Order not found"), orders)
    else if !Truthy(orders[orderId].paymentId) then (Fail(404, "Payment not found for this order"), orders)
    else (Ok(status), orders[orderId := Simulated(orders[orderId], status)])
  }

  /** Simulating a status never moves a payment id, so payment ids stay unique. */
  lemma SimulateKeepsIdsUnique(orders: map<string, Order>, orderId: string, status: string)
    requires PaymentIdsUnique(orders)
    ensures PaymentIdsUnique(SimulateStep(orders, orderId, status).1)
  {
    var r := SimulateStep(orders, orderId, status).1;
    if r != orders {
      assert forall k :: k in r ==> r[k].paymentId == orders[k].paymentId;
    }
  }

  method SimulatePaymentHandler(db: Database, orderId: string, status: string) returns (reply: Reply<string>)
    requires db.Valid()
    modifies db
    ensures db.Valid()
    ensures (reply, db.orders) == SimulateStep(old(db.orders), orderId, status)
    ensures db.products == old(db.products) && db.admins == old(db.admins)
  {
    if status !in [G.Pending, G.Paid, G.Expired] {
      return Fail(400, "Invalid status");
    }
    if orderId !in db.orders {
      return Fail(404, "Order not found");
    }
    var order := db.orders[orderId];
    if !Truthy(order.paymentId) {
      return Fail(404, "Payment not found for this order");
    }
    db.orders := db.orders[orderId := Simulated(order, status)];
    reply := Ok(status);
  }

  /**
   * In mock mode the read route re-derives the status from the payment id, so a simulated `paid`
   * on an id the mock calls pending is overwritten by the next read, while the order stays PREPARANDO.
   */
  lemma MockReadOverwritesSimulatedPaid(orders: map<string, Order>, orderId: string, env: G.Env,
                                        sdk: string -> Result<G.PaymentResult>)
    requires orderId in orders && Truthy(orders[orderId].paymentId)
    requires G.ShouldUseMock(env) && G.MockStatus(env, orders[orderId].paymentId.value) == G.Pending
    ensures var simulated := SimulateStep(orders, orderId, G.Paid).1;
      var read := GetPaymentStep(simulated, orderId, env, sdk).1;
      && simulated[orderId].paymentStatus == Some(G.Paid)
      && read[orderId].paymentStatus == Some(G.Pending)
      && read[orderId].status == Preparando
  {
    var simulated := SimulateStep(orders, orderId, G.Paid).1;
    assert simulated[orderId].paymentId == orders[orderId].paymentId;
  }

  // ---------------------------------------------------------------- POST /webhooks/abacatepay

  /** The update a paid webhook makes. */
  function MarkPaid(order: Order): (r: Order)
    ensures r.paymentStatus == Some(G.Paid) && r.status == Preparando
    ensures r == order.(paymentStatus := r.paymentStatus, status := r.status)
  {
    order.(paymentStatus := Some(G.Paid), status := Preparando)
  }

  /** Simulating `paid` and a paid webhook make the same update. */
  lemma SimulatePaidIsMarkPaid(order: Order)
    ensures Simulated(order, G.Paid) == MarkPaid(order)
  {
  }

  /** `orders'` is `orders` with some order holding `paymentId` (the one `findFirst` met) marked paid. */
  predicate PaidByWebhook(orders: map<string, Order>, paymentId: string, orders': map<string, Order>) {
    exists k :: k in orders && orders[k].paymentId == Some(paymentId) && orders' == orders[k := MarkPaid(orders[k])]
  }

  /** The reply and new orders of the webhook route, for the decoded event `result`. */
  predicate WebhookStep(orders: map<string, Order>, result: Result<G.WebhookResult>,
                        reply: Reply<bool>, orders': map<string, Order>) {
    if result.Failure? then reply == Fail(500, "Failed to process webhook") && orders' == orders
    else if !HoldsPayment(orders, result.value.paymentId) then
      reply == Fail(404, "Order not found for payment") && orders' == orders
    else
      reply == Ok(true)
      && (if result.value.status == G.Paid then PaidByWebhook(orders, result.value.paymentId, orders') else orders' == orders)
  }

  /** With unique payment ids, a second delivery of a paid webhook changes nothing. */
  lemma PaidWebhookIdempotent(orders: map<string, Order>, paymentId: string,
                              once: map<string, Order>, twice: map<string, Order>)
    requires PaymentIdsUnique(orders)
    requires PaidByWebhook(orders, paymentId, once)
    requires PaidByWebhook(once, paymentId, twice)
    ensures twice == once
  {
    var k :| k in orders && orders[k].paymentId == Some(paymentId) && once == orders[k := MarkPaid(orders[k])];
    var k' :| k' in once && once[k'].paymentId == Some(paymentId) && twice == once[k' := MarkPaid(once[k'])];
    assert once[k'].paymentId == orders[k'].paymentId;
    assert k' == k;
    assert MarkPaid(once[k]) == once[k];
  }

  /** Delivering the same decoded webhook twice gives the state of delivering it once, and the same reply. */
  lemma WebhookDeliveredTwice(orders: map<string, Order>, result: Result<G.WebhookResult>,
                              reply1: Reply<bool>, once: map<string, Order>,
                              reply2: Reply<bool>, twice: map<string, Order>)
    requires PaymentIdsUnique(orders)
    requires WebhookStep(orders, result, reply1, once)
    requires WebhookStep(once, result, reply2, twice)
    ensures twice == once && reply2 == reply1
  {
    if result.Success? && HoldsPayment(orders, result.value.paymentId) {
      var pid := result.value.paymentId;
      var k :| k in orders && orders[k].paymentId == Some(pid);
      if result.value.status == G.Paid {
        var j :| j in orders && orders[j].paymentId == Some(pid) && once == orders[j := MarkPaid(orders[j])];
        assert once[j].paymentId == Some(pid);
        PaidWebhookIdempotent(orders, pid, once, twice);
      }
      assert once[k].paymentId == Some(pid);
    }
  }

  /** A paid webhook on unique payment ids updates exactly the one order holding the id. */
  lemma PaidWebhookDeterministic(orders: map<string, Order>, paymentId: string,
                                 a: map<string, Order>, b: map<string, Order>)
    requires PaymentIdsUnique(orders)
    requires PaidByWebhook(orders, paymentId, a) && PaidByWebhook(orders, paymentId, b)
    ensures a == b
  {
    var ka :| ka in orders && orders[ka].paymentId == Some(paymentId) && a == orders[ka := MarkPaid(orders[ka])];
    var kb :| kb in orders && orders[kb].paymentId == Some(paymentId) && b == orders[kb := MarkPaid(orders[kb])];
  }

  /** The webhook never moves a payment id, so payment ids stay unique. */
  lemma WebhookKeepsIdsUnique(orders: map<string, Order>, result: Result<G.WebhookResult>,
                              reply: Reply<bool>, orders': map<string, Order>)
    requires PaymentIdsUnique(orders)
    requires WebhookStep(orders, result, reply, orders')
    ensures PaymentIdsUnique(orders')
  {
    if orders' != orders {
      var k :| k in orders && orders[k].paymentId == Some(result.value.paymentId) && orders' == orders[k := MarkPaid(orders[k])];
      assert forall j :: j in orders' ==> orders'[j].paymentId == orders[j].paymentId;
    }
  }

  method WebhookHandler(db: Database, env: G.Env, event: string, dataId: string,
                        signature: Option<string>, rawBody: string,
                        hmacHex: (string, string) -> string) returns (reply: Reply<bool>)
    requires db.Valid()
    modifies db
    ensures db.Valid()
    ensures WebhookStep(old(db.orders), G.ProcessWebhook(env.webhookSecret, event, dataId, signature, Some(rawBody), hmacHex),
                        reply, db.orders)
    ensures db.products == old(db.products) && db.admins == old(db.admins)
  {
    var result := G.ProcessWebhook(env.webhookSecret, event, dataId, signature, Some(rawBody), hmacHex);
    if result.Failure? {
      return Fail(500, "Failed to process webhook");
    }
    var pid := result.value.paymentId;
    if !HoldsPayment(db.orders, pid) {
      return Fail(404, "Order not found for payment");
    }
    var k :| k in db.orders && db.orders[k].paymentId == Some(pid);
    if result.value.status == G.Paid {
      db.orders := db.orders[k := MarkPaid(db.orders[k])];
    }
    reply := Ok(true);
  }
}
