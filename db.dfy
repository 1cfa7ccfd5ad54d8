/**
 * The relational store behind the backend, held in memory: orders keyed by id (with their items
 * and address), the product table, and the admin table keyed by e-mail.
 */
module Db {
  import opened Wrappers

  /** The order lifecycle enum of the schema. */
  datatype OrderStatus = Pendente | Preparando | SaiuParaEntrega | Entregue

  /** The enum member's name as stored and as sent over the wire. */
  function StatusName(s: OrderStatus): string {
    match s
    case Pendente => "PENDENTE"
    case Preparando => "PREPARANDO"
    case SaiuParaEntrega => "SAIU_PARA_ENTREGA"
    case Entregue => "ENTREGUE"
  }

  /** `Object.values(OrderStatus).includes(s)`, returning the member it names. */
  function ParseStatus(s: string): (r: Option<OrderStatus>)
    ensures r.Some? ==> StatusName(r.value) == s
  {
    if s == "PENDENTE" then Some(Pendente)
    else if s == "PREPARANDO" then Some(Preparando)
    else if s == "SAIU_PARA_ENTREGA" then Some(SaiuParaEntrega)
    else if s == "ENTREGUE" then Some(Entregue)
    else None
  }

  /** Every member's name is accepted, and parses back to that member. */
  lemma ParseStatusName(s: OrderStatus)
    ensures ParseStatus(StatusName(s)) == Some(s)
  {
  }

  /** An order line: the product, the quantity and the unit price in cents at purchase time. */
  datatype OrderItem = OrderItem(productId: string, quantity: int, price: int)

  datatype Address = Address(
    street: string, number: string, complement: Option<string>,
    neighborhood: string, city: string, zipCode: string)

  datatype Order = Order(
    id: string,
    customerName: string,
    customerEmail: string,
    customerPhone: string,
    status: OrderStatus,
    paymentId: Option<string>,
    paymentStatus: Option<string>,
    shippingValue: Option<int>,
    deliveryTime: Option<string>,
    items: seq<OrderItem>,
    address: Address,
    createdAt: int)

  /** A product row; prices are in cents. */
  datatype Product = Product(
    name: string, price: int, stock: int,
    description: Option<string>, imageUrl: Option<string>, category: Option<string>)

  /** An admin row; `password` is the stored bcrypt hash. */
  datatype Admin = Admin(id: string, email: string, password: string)

  /** No two orders hold the same payment id. */
  predicate PaymentIdsUnique(orders: map<string, Order>) {
    forall a, b :: a in orders && b in orders && orders[a].paymentId.Some? && orders[a].paymentId == orders[b].paymentId ==> a == b
  }

  /** Each order sits under its own id. */
  predicate OrdersKeyed(orders: map<string, Order>) {
    forall k :: k in orders ==> orders[k].id == k
  }

  /** Each admin sits under its own (unique) e-mail. */
  predicate AdminsKeyed(admins: map<string, Admin>) {
    forall e :: e in admins ==> admins[e].email == e
  }

  class Database {
    var orders: map<string, Order>
    var products: seq<Product>
    var admins: map<string, Admin>

    ghost predicate Valid()
      reads this
    {
      OrdersKeyed(orders) && AdminsKeyed(admins)
    }

    constructor ()
      ensures Valid()
      ensures orders == map[] && products == [] && admins == map[]
    {
      orders := map[];
      products := [];
      admins := map[];
    }
  }
}
