/**
 * What a successful checkout writes: one OrderItem per listed cart item, and
 * each listed product saved back with its stock reduced by the quantity.
 */
module Checkout {
  import opened Shop
  import opened Cart
  import opened CartItems

  /** The OrderItem created for a listed item: its product, quantity and snapshotted unit price. */
  function LineOf(x: CartItem): OrderItem {
    OrderItem(x.productId, x.quantity, x.price)
  }

  function LinesOf(items: seq<CartItem>): (lines: seq<OrderItem>) {
    seq(|items|, k requires 0 <= k < |items| => LineOf(items[k]))
  }

  /** The product row of a listed item, as `stock -= quantity` then `save()` writes it back. */
  function Reduced(x: CartItem): Product {
    x.product.(stock := x.product.stock - x.quantity)
  }

  /** The Product table after the items are saved one after the other. */
  function Decremented(products: ProductTable, items: seq<CartItem>): ProductTable
    decreases |items|
  {
    if items == [] then products
    else Decremented(products[items[0].productId := Reduced(items[0])], items[1..])
  }

  /** How many units of a product a checkout of the cart takes from stock: its quantity if listed, else 0. */
  function OrderedQuantity(c: Cart, products: ProductTable, pid: ProductId): int {
    if pid in ToMap(c) && Included(products, CartEntry(pid, ToMap(c)[pid])) then ToMap(c)[pid] else 0
  }

  /** Saving distinct items writes each item's reduced row under its id and leaves every other row alone. */
  lemma {:induction false} DecrementedFor(q: ProductTable, items: seq<CartItem>, pid: ProductId)
    requires DistinctItems(items)
    requires pid in q || pid in ItemIds(items)
    ensures pid in Decremented(q, items)
    ensures ItemFor(items, pid).Some? ==> Decremented(q, items)[pid] == Reduced(ItemFor(items, pid).value)
    ensures ItemFor(items, pid).None? ==> pid in q && Decremented(q, items)[pid] == q[pid]
    decreases |items|
  {
    NotListedHasNoItem(items, pid);
    if items != [] {
      var q' := q[items[0].productId := Reduced(items[0])];
      NotListedHasNoItem(items[1..], pid);
      DecrementedFor(q', items[1..], pid);
    }
  }

  lemma {:induction false} NotListedHasNoItem(items: seq<CartItem>, pid: ProductId)
    ensures ItemFor(items, pid).Some? <==> pid in ItemIds(items)
    ensures ItemFor(items, pid).Some? ==> ItemFor(items, pid).value.productId == pid
  {
    if items != [] {
      NotListedHasNoItem(items[1..], pid);
    }
  }

  lemma {:induction false} DecrementedKeys(q: ProductTable, items: seq<CartItem>)
    ensures Decremented(q, items).Keys == q.Keys + ItemIds(items)
    decreases |items|
  {
    if items != [] {
      DecrementedKeys(q[items[0].productId := Reduced(items[0])], items[1..]);
    }
  }

  /**
   * A checkout of a cart leaves every product row as it was except for its
   * stock, which drops by exactly the quantity the checkout takes; since an
   * item is only listed when the stock covers its quantity, the stock of a
   * product the order takes from never drops below zero.
   */
  lemma CheckoutStock(c: Cart, products: ProductTable)
    requires DistinctIds(c)
    ensures Decremented(products, Materialized(c, products)).Keys == products.Keys
    ensures forall pid :: pid in products ==>
      Decremented(products, Materialized(c, products))[pid] ==
        products[pid].(stock := products[pid].stock - OrderedQuantity(c, products, pid))
    ensures forall pid :: pid in products && OrderedQuantity(c, products, pid) != 0 ==>
      Decremented(products, Materialized(c, products))[pid].stock >= 0
    ensures (forall pid :: pid in products ==> products[pid].stock >= 0) ==>
      forall pid :: pid in products ==> Decremented(products, Materialized(c, products))[pid].stock >= 0
  {
    var items := Materialized(c, products);
    MaterializedDistinct(c, products);
    DecrementedKeys(products, items);
    assert ItemIds(items) <= products.Keys by {
      forall pid | pid in ItemIds(items) ensures pid in products {
        NotListedHasNoItem(items, pid);
        ItemForIsMember(items, pid);
      }
    }
    forall pid | pid in products
      ensures Decremented(products, items)[pid] ==
        products[pid].(stock := products[pid].stock - OrderedQuantity(c, products, pid))
    {
      DecrementedFor(products, items, pid);
      MaterializedFor(c, products, pid);
    }
  }

  lemma {:induction false} ItemForIsMember(items: seq<CartItem>, pid: ProductId)
    ensures ItemFor(items, pid).Some? ==> ItemFor(items, pid).value in items
  {
    if items != [] {
      ItemForIsMember(items[1..], pid);
    }
  }

  /**
   * The order's total_amount equals the cart total and its total_items the cart
   * count, for items whose line total is price times quantity.
   */
  lemma {:induction false} OrderTotalsMatchCart(items: seq<CartItem>)
    requires forall x :: x in items ==> x.totalPrice == x.price * x.quantity
    ensures TotalAmount(LinesOf(items)) == TotalOf(items)
    ensures TotalItems(LinesOf(items)) == CountOf(items)
  {
    if items != [] {
      assert LinesOf(items)[1..] == LinesOf(items[1..]);
      OrderTotalsMatchCart(items[1..]);
    }
  }

  /** Every listed item's line total is its price times its quantity. */
  lemma MaterializedLineTotals(c: Cart, products: ProductTable)
    ensures forall x :: x in Materialized(c, products) ==> x.totalPrice == x.price * x.quantity
  {
  }

  /** The order's lines hold each product once, so the (order, product) constraint is never hit. */
  lemma {:induction false} LinesDistinct(items: seq<CartItem>)
    requires DistinctItems(items)
    ensures DistinctProducts(LinesOf(items))
  {
    if items != [] {
      LinesDistinct(items[1..]);
      assert LinesOf(items)[1..] == LinesOf(items[1..]);
      forall j | 0 < j < |items| ensures items[j].productId != items[0].productId {
        ItemIdsHas(items[1..], j - 1);
      }
    }
  }

  lemma {:induction false} ItemIdsHas(items: seq<CartItem>, k: nat)
    requires k < |items|
    ensures items[k].productId in ItemIds(items)
  {
    if k > 0 {
      ItemIdsHas(items[1..], k - 1);
    }
  }
}
