/** The browser-side shopping cart kept under the local-storage key "cart". */
module Cart {
  import opened Wrappers
  import Seqs

  /** One cart line; `price` is the unit price in cents captured when the line was added. */
  datatype CartItem = CartItem(productId: string, quantity: int, price: int, name: string)

  /** The amount one line contributes to the cart total. */
  function LineAmount(line: CartItem): int {
    line.price * line.quantity
  }

  function Quantity(line: CartItem): int {
    line.quantity
  }

  predicate HasId(cart: seq<CartItem>, id: string) {
    exists i :: 0 <= i < |cart| && cart[i].productId == id
  }

  /** No two lines share a product id. */
  predicate UniqueIds(cart: seq<CartItem>) {
    forall i, j :: 0 <= i < j < |cart| ==> cart[i].productId != cart[j].productId
  }

  /** `cart.find(i => i.productId === id)` as a position: the first matching line, or -1. */
  function FirstIndex(cart: seq<CartItem>, id: string): (r: int)
    ensures -1 <= r < |cart|
    ensures r == -1 <==> !HasId(cart, id)
    ensures r >= 0 ==> cart[r].productId == id
    ensures r >= 0 ==> forall j :: 0 <= j < r ==> cart[j].productId != id
    decreases |cart|
  {
    if cart == [] then -1
    else if cart[0].productId == id then 0
    else
      var k := FirstIndex(cart[1..], id);
      if k == -1 then -1 else k + 1
  }

  /** The cart `addToCart(item)` stores: the quantity of an existing line grows, or the item is appended. */
  function Added(cart: seq<CartItem>, item: CartItem): seq<CartItem> {
    var i := FirstIndex(cart, item.productId);
    if i >= 0 then cart[i := cart[i].(quantity := cart[i].quantity + item.quantity)]
    else cart + [item]
  }

  function NotId(id: string): CartItem -> bool {
    (line: CartItem) => line.productId != id
  }

  /** The cart `removeFromCart(id)` stores: every line of that product is dropped. */
  function Removed(cart: seq<CartItem>, id: string): seq<CartItem> {
    Seqs.Filter(cart, NotId(id))
  }

  /** `calculateTotal`: the sum of price times quantity over the lines. */
  function Total(cart: seq<CartItem>): int {
    Seqs.Sum(cart, LineAmount)
  }

  /** The badge count kept by the cart hook: the sum of the quantities. */
  function ItemCount(cart: seq<CartItem>): int {
    Seqs.Sum(cart, Quantity)
  }

  /** The stored cart and the operations of the cart module over it. */
  class CartStore {
    /** The JSON under the "cart" key, already parsed; `None` when the key is absent. */
    var stored: Option<seq<CartItem>>

    constructor ()
      ensures stored == None
    {
      stored := None;
    }

    /** `getCart`: the stored lines, or the empty cart when nothing is stored. */
    function GetCart(): (cart: seq<CartItem>)
      reads this
      ensures stored.None? ==> cart == []
      ensures stored.Some? ==> cart == stored.value
    {
      match stored
      case None => []
      case Some(c) => c
    }

    method AddToCart(item: CartItem)
      modifies this
      ensures stored == Some(Added(old(GetCart()), item))
    {
      var cart := GetCart();
      var i := FirstIndex(cart, item.productId);
      if i >= 0 {
        var existing := cart[i];
        cart := cart[i := existing.(quantity := existing.quantity + item.quantity)];
      } else {
        cart := cart + [item];
      }
      stored := Some(cart);
    }

    method RemoveFromCart(id: string)
      modifies this
      ensures stored == Some(Removed(old(GetCart()), id))
    {
      var cart := Seqs.Filter(GetCart(), NotId(id));
      stored := Some(cart);
    }

    /** A quantity of zero or less removes the line; an unknown product id writes nothing. */
    method UpdateCartItem(id: string, quantity: int)
      modifies this
      ensures !HasId(old(GetCart()), id) ==> stored == old(stored)
      ensures HasId(old(GetCart()), id) && quantity <= 0 ==> stored == Some(Removed(old(GetCart()), id))
      ensures HasId(old(GetCart()), id) && quantity > 0 ==>
        var i := FirstIndex(old(GetCart()), id);
        stored == Some(old(GetCart())[i := old(GetCart())[i].(quantity := quantity)])
    {
      var cart := GetCart();
      var i := FirstIndex(cart, id);
      if i >= 0 {
        if quantity <= 0 {
          var filtered := Seqs.Filter(cart, NotId(id));
          stored := Some(filtered);
        } else {
          cart := cart[i := cart[i].(quantity := quantity)];
          stored := Some(cart);
        }
      }
    }

    method ClearCart()
      modifies this
      ensures stored == None
      ensures GetCart() == []
    {
      stored := None;
    }
  }

  /** Adding a product already in the cart grows that line by the added quantity and changes nothing else. */
  lemma AddExisting(cart: seq<CartItem>, item: CartItem)
    requires HasId(cart, item.productId)
    ensures var i := FirstIndex(cart, item.productId);
      && |Added(cart, item)| == |cart|
      && Added(cart, item)[i].quantity == cart[i].quantity + item.quantity
      && Added(cart, item)[i].price == cart[i].price
      && Added(cart, item)[i].name == cart[i].name
      && Added(cart, item)[i].productId == item.productId
      && forall j :: 0 <= j < |cart| && j != i ==> Added(cart, item)[j] == cart[j]
  {
  }

  /** Adding a product not yet in the cart appends it as the last line. */
  lemma AddNew(cart: seq<CartItem>, item: CartItem)
    requires !HasId(cart, item.productId)
    ensures |Added(cart, item)| == |cart| + 1
    ensures Added(cart, item)[|cart|] == item
    ensures Added(cart, item)[..|cart|] == cart
  {
  }

  /** Product ids stay unique across `addToCart`. */
  lemma AddKeepsIdsUnique(cart: seq<CartItem>, item: CartItem)
    requires UniqueIds(cart)
    ensures UniqueIds(Added(cart, item))
  {
    var r := Added(cart, item);
    var i := FirstIndex(cart, item.productId);
    if i < 0 {
      forall a, b | 0 <= a < b < |r|
        ensures r[a].productId != r[b].productId
      {
        if b == |cart| {
          assert r[a] == cart[a];
        }
      }
    }
  }

  /** After `removeFromCart(id)` no line has that id, and every other line is kept. */
  lemma RemoveDropsOnlyThatId(cart: seq<CartItem>, id: string)
    ensures !HasId(Removed(cart, id), id)
    ensures forall line :: line in Removed(cart, id) <==> line in cart && line.productId != id
    ensures Seqs.IsSubsequence(Removed(cart, id), cart)
  {
    forall line
      ensures line in Removed(cart, id) <==> line in cart && line.productId != id
    {
      Seqs.FilterMembership(cart, NotId(id), line);
    }
    Seqs.FilterIsSubsequence(cart, NotId(id));
  }

  /** Removing lines of one product keeps the remaining ids unique. */
  lemma {:induction false} RemoveKeepsIdsUnique(cart: seq<CartItem>, id: string)
    requires UniqueIds(cart)
    ensures UniqueIds(Removed(cart, id))
    decreases |cart|
  {
    if cart != [] {
      assert UniqueIds(cart[1..]) by {
        forall a, b | 0 <= a < b < |cart[1..]|
          ensures cart[1..][a].productId != cart[1..][b].productId
        {
          assert cart[1..][a] == cart[a + 1] && cart[1..][b] == cart[b + 1];
        }
      }
      RemoveKeepsIdsUnique(cart[1..], id);
      var rest := Removed(cart[1..], id);
      if cart[0].productId != id {
        assert Removed(cart, id) == [cart[0]] + rest;
        forall k | 0 <= k < |rest|
          ensures rest[k].productId != cart[0].productId
        {
          Seqs.FilterMembership(cart[1..], NotId(id), rest[k]);
          assert rest[k] in cart[1..];
        }
      }
    }
  }

  /** Setting the quantity of a line never changes a product id, so ids stay unique. */
  lemma SetQuantityKeepsIdsUnique(cart: seq<CartItem>, id: string, quantity: int)
    requires UniqueIds(cart) && HasId(cart, id)
    ensures var i := FirstIndex(cart, id);
      UniqueIds(cart[i := cart[i].(quantity := quantity)])
  {
  }

  /** Removing a product that is not in the cart stores the cart as it was. */
  lemma RemoveAbsentKeepsCart(cart: seq<CartItem>, id: string)
    requires !HasId(cart, id)
    ensures Removed(cart, id) == cart
  {
    Seqs.FilterKeepsAll(cart, NotId(id));
  }

  /** The total of the empty cart is zero. */
  lemma TotalEmpty()
    ensures Total([]) == 0
  {
  }

  /**
   * Adding an item raises the total by the added quantity priced at the unit price of the line
   * it ends up in: the price already in the cart for a known product, the item's own price otherwise.
   */
  lemma TotalAfterAdd(cart: seq<CartItem>, item: CartItem)
    ensures var i := FirstIndex(cart, item.productId);
      Total(Added(cart, item)) == Total(cart) + (if i >= 0 then cart[i].price else item.price) * item.quantity
  {
    var i := FirstIndex(cart, item.productId);
    if i >= 0 {
      var line := cart[i].(quantity := cart[i].quantity + item.quantity);
      Seqs.SumUpdate(cart, i, line, LineAmount);
      assert LineAmount(line) == LineAmount(cart[i]) + cart[i].price * item.quantity by {
        assert cart[i].price * (cart[i].quantity + item.quantity)
            == cart[i].price * cart[i].quantity + cart[i].price * item.quantity;
      }
    } else {
      Seqs.SumAppend(cart, item, LineAmount);
    }
  }

  /** Adding an item raises the item count by exactly its quantity, in both branches. */
  lemma ItemCountAfterAdd(cart: seq<CartItem>, item: CartItem)
    ensures ItemCount(Added(cart, item)) == ItemCount(cart) + item.quantity
  {
    var i := FirstIndex(cart, item.productId);
    if i >= 0 {
      Seqs.SumUpdate(cart, i, cart[i].(quantity := cart[i].quantity + item.quantity), Quantity);
    } else {
      Seqs.SumAppend(cart, item, Quantity);
    }
  }

  /** Setting a positive quantity changes the total by the re-priced line only. */
  lemma TotalAfterSetQuantity(cart: seq<CartItem>, id: string, quantity: int)
    requires HasId(cart, id)
    ensures var i := FirstIndex(cart, id);
      Total(cart[i := cart[i].(quantity := quantity)])
        == Total(cart) - cart[i].price * cart[i].quantity + cart[i].price * quantity
  {
    var i := FirstIndex(cart, id);
    Seqs.SumUpdate(cart, i, cart[i].(quantity := quantity), LineAmount);
  }

  /** A cart whose lines all have non-negative prices and quantities has a non-negative total. */
  lemma TotalNonNegative(cart: seq<CartItem>)
    requires forall i :: 0 <= i < |cart| ==> cart[i].price >= 0 && cart[i].quantity >= 0
    ensures Total(cart) >= 0
  {
    Seqs.SumNonNegative(cart, LineAmount);
  }
}
