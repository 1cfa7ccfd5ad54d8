/** The order routes: validate and create an order, and read one back. */
module OrderRoutes {
  import opened Wrappers
  import opened Strings
  import opened Db

  /** One requested line. */
  datatype ItemInput = ItemInput(productId: string, quantity: int, price: int)

  /** The JSON body of POST /orders; `None` is an absent field. */
  datatype OrderRequest = OrderRequest(
    customerName: Option<string>,
    customerEmail: Option<string>,
    customerPhone: Option<string>,
    address: Option<Address>,
    items: Option<seq<ItemInput>>,
    shippingValue: Option<int>,
    deliveryTime: Option<string>)

  /** The required-field guard: a falsy contact field, no address, no items or an empty item list. */
  predicate MissingRequired(req: OrderRequest) {
    || !Truthy(req.customerName)
    || !Truthy(req.customerEmail)
    || !Truthy(req.customerPhone)
    || req.address.None?
    || req.items.None?
    || |req.items.value| == 0
  }

  /** `items.map(...)`: one order item per requested line, with the same product, quantity and price. */
  function ToOrderItems(items: seq<ItemInput>): (r: seq<OrderItem>)
    ensures |r| == |items|
    ensures forall i :: 0 <= i < |items| ==>
      r[i].productId == items[i].productId && r[i].quantity == items[i].quantity && r[i].price == items[i].price
    decreases |items|
  {
    if items == [] then []
    else [OrderItem(items[0].productId, items[0].quantity, items[0].price)] + ToOrderItems(items[1..])
  }

  /** The order `prisma.order.create` inserts under the generated `id` at time `now`. */
  function NewOrder(req: OrderRequest, id: string, now: int): (o: Order)
    requires !MissingRequired(req)
    ensures o.id == id && o.createdAt == now
    ensures o.status == Pendente && o.paymentId == None && o.paymentStatus == None
    ensures o.customerName == req.customerName.value
      && o.customerEmail == req.customerEmail.value
      && o.customerPhone == req.customerPhone.value
    ensures o.address == req.address.value
    ensures o.shippingValue == req.shippingValue
    ensures o.deliveryTime == if Truthy(req.deliveryTime) then req.deliveryTime else None
    ensures |o.items| == |req.items.value|
    ensures forall i :: 0 <= i < |o.items| ==>
      o.items[i] == OrderItem(req.items.value[i].productId, req.items.value[i].quantity, req.items.value[i].price)
  {
    Order(
      id, req.customerName.value, req.customerEmail.value, req.customerPhone.value,
      Pendente, None, None,
      req.shippingValue,
      if Truthy(req.deliveryTime) then req.deliveryTime else None,
      ToOrderItems(req.items.value),
      req.address.value,
      now)
  }

  /**
   * POST /orders (answered with 201 on success). The database supplies the generated `newId`
   * and the creation time `now`; an id already in use makes the insert throw (500).
   */
  method CreateOrder(db: Database, req: OrderRequest, newId: string, now: int) returns (reply: Reply<Order>)
    requires db.Valid()
    modifies db
    ensures db.Valid()
    ensures MissingRequired(req) ==> reply == Fail(400, "Missing required fields") && db.orders == old(db.orders)
    ensures !MissingRequired(req) && newId in old(db.orders) ==>
      reply == Fail(500, "Failed to create order") && db.orders == old(db.orders)
    ensures !MissingRequired(req) && newId !in old(db.orders) ==>
      reply == Ok(NewOrder(req, newId, now)) && db.orders == old(db.orders)[newId := NewOrder(req, newId, now)]
    ensures db.products == old(db.products) && db.admins == old(db.admins)
  {
    if MissingRequired(req) {
      return Fail(400, "Missing required fields");
    }
    if newId in db.orders {
      return Fail(500, "Failed to create order");
    }
    var order := NewOrder(req, newId, now);
    db.orders := db.orders[newId := order];
    reply := Ok(order);
  }

  /** GET /orders/:id. */
  function GetOrder(orders: map<string, Order>, id: string): (r: Reply<Order>)
    ensures id !in orders <==> r == Fail(404, "Order not found")
    ensures r.Ok? <==> id in orders
    ensures r.Ok? ==> r.body == orders[id]
  {
    if id in orders then Ok(orders[id]) else Fail(404, "Order not found")
  }

  /** A new order holds no payment, so payment ids stay unique. */
  lemma CreateOrderKeepsPaymentIdsUnique(orders: map<string, Order>, req: OrderRequest, newId: string, now: int)
    requires PaymentIdsUnique(orders) && !MissingRequired(req)
    ensures PaymentIdsUnique(orders[newId := NewOrder(req, newId, now)])
  {
  }

  /** A created order is found by GET under its id, as created. */
  lemma CreatedOrderIsFound(orders: map<string, Order>, req: OrderRequest, newId: string, now: int)
    requires !MissingRequired(req)
    ensures GetOrder(orders[newId := NewOrder(req, newId, now)], newId) == Ok(NewOrder(req, newId, now))
  {
  }
}
