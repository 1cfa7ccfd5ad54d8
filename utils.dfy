/** The order total helpers of the storefront. */
module Utils {
  import Seqs
  import opened Db

  /** What one order line contributes: unit price times quantity. */
  function ItemAmount(item: OrderItem): int {
    item.price * item.quantity
  }

  /** `calculateOrderSubtotal`: the sum of price times quantity over the items, starting at 0. */
  function OrderSubtotal(items: seq<OrderItem>): int {
    Seqs.Sum(items, ItemAmount)
  }

  /**
   * `calculateOrderTotal`: the source repeats the subtotal's `reduce` over `order.items`
   * (shipping is not added), so the two are the same fold.
   */
  function OrderTotal(order: Order): int {
    OrderSubtotal(order.items)
  }

  lemma SubtotalEmpty()
    ensures OrderSubtotal([]) == 0
  {
  }

  /** Appending an item raises the subtotal by exactly its price times quantity. */
  lemma SubtotalAppend(items: seq<OrderItem>, item: OrderItem)
    ensures OrderSubtotal(items + [item]) == OrderSubtotal(items) + item.price * item.quantity
  {
    Seqs.SumAppend(items, item, ItemAmount);
  }

  /** The subtotal of two item lists together is the sum of their subtotals. */
  lemma SubtotalConcat(a: seq<OrderItem>, b: seq<OrderItem>)
    ensures OrderSubtotal(a + b) == OrderSubtotal(a) + OrderSubtotal(b)
  {
    Seqs.SumConcat(a, b, ItemAmount);
  }

  /** With non-negative prices and quantities the total is non-negative. */
  lemma TotalNonNegative(order: Order)
    requires forall i :: 0 <= i < |order.items| ==> order.items[i].price >= 0 && order.items[i].quantity >= 0
    ensures OrderTotal(order) >= 0
  {
    Seqs.SumNonNegative(order.items, ItemAmount);
  }
}
