/** The admin order board: the status lifecycle, the per-order total and the labels. */
module AdminOrdersPage {
  import opened Wrappers
  import opened Strings
  import opened Db
  import Utils

  /** The lifecycle, in order; the last status is terminal. */
  const StatusOrder: seq<string> := ["PENDENTE", "PREPARANDO", "SAIU_PARA_ENTREGA", "ENTREGUE"]

  /** `indexOf`: the first position of `x` in `s`, or -1. */
  function IndexOf(s: seq<string>, x: string): (r: int)
    ensures -1 <= r < |s|
    ensures r == -1 <==> x !in s
    ensures r >= 0 ==> s[r] == x && x !in s[..r]
    decreases |s|
  {
    if s == [] then -1
    else if s[0] == x then 0
    else
      var k := IndexOf(s[1..], x);
      assert k >= 0 ==> s[..k + 1] == [s[0]] + s[1..][..k];
      if k == -1 then -1 else k + 1
  }

  /**
   * `handleStatusUpdate`: the status the button asks the PATCH route for, or `None` when no
   * request is sent.
   */
  function RequestedStatus(current: string): (r: Option<string>)
    ensures forall i :: 0 <= i < |StatusOrder| - 1 && current == StatusOrder[i] ==> r == Some(StatusOrder[i + 1])
    ensures current == "ENTREGUE" ==> r == None
    ensures current !in StatusOrder ==> r == Some("PENDENTE")
  {
    var i := IndexOf(StatusOrder, current);
    if i < |StatusOrder| - 1 then Some(StatusOrder[i + 1]) else None
  }

  /** `canUpdateStatus`: the update button is shown for any status but the terminal one. */
  function CanUpdateStatus(status: string): bool {
    status != "ENTREGUE"
  }

  /** The button is shown exactly when pressing it sends a request. */
  lemma ButtonShownIffRequestSent(status: string)
    ensures CanUpdateStatus(status) <==> RequestedStatus(status).Some?
  {
    if status in StatusOrder {
      var i :| 0 <= i < |StatusOrder| && StatusOrder[i] == status;
      assert i == 3 || i < |StatusOrder| - 1;
    }
  }

  /** The successor of a lifecycle member in the schema's terms. */
  function Next(s: OrderStatus): Option<OrderStatus> {
    match s
    case Pendente => Some(Preparando)
    case Preparando => Some(SaiuParaEntrega)
    case SaiuParaEntrega => Some(Entregue)
    case Entregue => None
  }

  /** Every request the board sends is a valid enum member for the PATCH route, the stored status's successor. */
  lemma RequestIsAcceptedSuccessor(s: OrderStatus)
    ensures match RequestedStatus(StatusName(s))
      case None => s == Entregue
      case Some(name) => ParseStatus(name) == Next(s)
  {
    assert StatusOrder[0] == "PENDENTE" && StatusOrder[1] == "PREPARANDO";
    assert StatusOrder[2] == "SAIU_PARA_ENTREGA" && StatusOrder[3] == "ENTREGUE";
  }

  /** Starting from PENDENTE, three presses reach ENTREGUE, after which nothing is requested. */
  lemma LifecycleReachesTerminal()
    ensures RequestedStatus("PENDENTE") == Some("PREPARANDO")
    ensures RequestedStatus("PREPARANDO") == Some("SAIU_PARA_ENTREGA")
    ensures RequestedStatus("SAIU_PARA_ENTREGA") == Some("ENTREGUE")
    ensures RequestedStatus("ENTREGUE") == None
  {
    assert StatusOrder[0] == "PENDENTE" && StatusOrder[1] == "PREPARANDO";
    assert StatusOrder[2] == "SAIU_PARA_ENTREGA" && StatusOrder[3] == "ENTREGUE";
  }

  /** The total shown on an order card: price times quantity summed over its items. */
  function CardTotal(order: Order): int {
    Utils.OrderSubtotal(order.items)
  }

  /** The shown total grows by price times quantity with each item, from 0. */
  lemma CardTotalByItems(order: Order, item: OrderItem)
    ensures CardTotal(order.(items := [])) == 0
    ensures CardTotal(order.(items := order.items + [item])) == CardTotal(order) + item.price * item.quantity
  {
    Utils.SubtotalAppend(order.items, item);
  }

  /** `statusLabels[status] || status`. */
  function StatusLabel(status: string): (r: string)
    ensures status == "PENDENTE" ==> r == "Pendente"
    ensures status == "PREPARANDO" ==> r == "Preparando"
    ensures status == "SAIU_PARA_ENTREGA" ==> r == "Saiu para entrega"
    ensures status == "ENTREGUE" ==> r == "Entregue"
    ensures status !in StatusOrder ==> r == status
  {
    if status == "PENDENTE" then "Pendente"
    else if status == "PREPARANDO" then "Preparando"
    else if status == "SAIU_PARA_ENTREGA" then "Saiu para entrega"
    else if status == "ENTREGUE" then "Entregue"
    else status
  }

  /** The payment line: shown only for a truthy payment status, and anything but paid or pending reads as expired. */
  function PaymentLabel(paymentStatus: Option<string>): (r: Option<string>)
    ensures r.Some? <==> Truthy(paymentStatus)
    ensures r.Some? && paymentStatus.value == "paid" ==> r.value == "\U{2705} Pago"
    ensures r.Some? && paymentStatus.value == "pending" ==> r.value == "\U{23F3} Pendente"
    ensures r.Some? && paymentStatus.value != "paid" && paymentStatus.value != "pending" ==> r.value == "\U{274C} Expirado"
  {
    if !Truthy(paymentStatus) then None
    else if paymentStatus.value == "paid" then Some("\U{2705} Pago")
    else if paymentStatus.value == "pending" then Some("\U{23F3} Pendente")
    else Some("\U{274C} Expirado")
  }
}
