/**
 * What get_cart_items makes of the cart: the materialised items with their
 * prices and line totals, the money total and the unit count, and the cart
 * with its stale entries swept out.
 */
module CartItems {
  import opened Wrappers
  import opened Shop
  import opened Cart

  /** One element of `cart_items`: the product row, the quantity, the unit price and the line total. */
  datatype CartItem = CartItem(productId: ProductId, product: Product, quantity: int, price: int, totalPrice: int)

  /** An entry is listed when its product resolves and has at least the requested stock. */
  predicate Included(products: ProductTable, e: CartEntry) {
    Resolves(products, e.id) && products[e.id].stock >= e.quantity
  }

  function ItemOf(products: ProductTable, e: CartEntry): CartItem
    requires Resolves(products, e.id)
  {
    var p := products[e.id];
    CartItem(e.id, p, e.quantity, p.price, p.price * e.quantity)
  }

  /** `cart_items`, in the cart's order. */
  function Materialized(c: Cart, products: ProductTable): (r: seq<CartItem>)
    ensures forall x :: x in r <==> exists e :: e in c && Included(products, e) && x == ItemOf(products, e)
  {
    if c == [] then []
    else
      var rest := Materialized(c[1..], products);
      assert forall e :: e in c <==> e == c[0] || e in c[1..];
      (if Included(products, c[0]) then [ItemOf(products, c[0])] else []) + rest
  }

  /** The cart once the entries whose product is missing or inactive are deleted. */
  function Swept(c: Cart, products: ProductTable): (r: Cart)
    ensures forall e :: e in r <==> e in c && Resolves(products, e.id)
    ensures Ids(r) <= Ids(c)
    ensures DistinctIds(c) ==> DistinctIds(r)
    ensures PositiveQuantities(c) ==> PositiveQuantities(r)
  {
    if c == [] then []
    else
      var rest := Swept(c[1..], products);
      assert forall e :: e in c <==> e == c[0] || e in c[1..];
      if Resolves(products, c[0].id) then [c[0]] + rest else rest
  }

  /** The listing follows the cart's order: an entry appended to the cart adds its item, if any, at the end. */
  lemma {:induction false} ListedStep(c: Cart, products: ProductTable, e: CartEntry)
    ensures Materialized(c + [e], products) ==
      Materialized(c, products) + (if Included(products, e) then [ItemOf(products, e)] else [])
  {
    if c != [] {
      assert (c + [e])[1..] == c[1..] + [e];
      ListedStep(c[1..], products, e);
    }
  }

  /** The sweep keeps the cart's order: an entry appended to the cart is kept, at the end, iff it resolves. */
  lemma {:induction false} KeptStep(c: Cart, products: ProductTable, e: CartEntry)
    ensures Swept(c + [e], products) ==
      Swept(c, products) + (if Resolves(products, e.id) then [e] else [])
  {
    if c != [] {
      assert (c + [e])[1..] == c[1..] + [e];
      KeptStep(c[1..], products, e);
    }
  }

  /** `cart_total`: the sum of the line totals. */
  function TotalOf(items: seq<CartItem>): int {
    if items == [] then 0 else items[0].totalPrice + TotalOf(items[1..])
  }

  /** `cart_count`: the sum of the quantities. */
  function CountOf(items: seq<CartItem>): int {
    if items == [] then 0 else items[0].quantity + CountOf(items[1..])
  }

  function ItemIds(items: seq<CartItem>): set<ProductId> {
    if items == [] then {} else {items[0].productId} + ItemIds(items[1..])
  }

  predicate DistinctItems(items: seq<CartItem>) {
    items == [] || (items[0].productId !in ItemIds(items[1..]) && DistinctItems(items[1..]))
  }

  /** The first item for a product, if any. */
  function ItemFor(items: seq<CartItem>, pid: ProductId): Option<CartItem> {
    if items == [] then None
    else if items[0].productId == pid then Some(items[0])
    else ItemFor(items[1..], pid)
  }

  /**
   * A product is listed exactly when it is in the cart, resolves and has at
   * least the cart's quantity in stock; its item carries that quantity, the
   * product's current price and price times quantity.
   */
  lemma {:induction false} MaterializedFor(c: Cart, products: ProductTable, pid: ProductId)
    requires DistinctIds(c)
    ensures ItemFor(Materialized(c, products), pid) ==
      if pid in ToMap(c) && Included(products, CartEntry(pid, ToMap(c)[pid]))
      then Some(ItemOf(products, CartEntry(pid, ToMap(c)[pid])))
      else None
  {
    if c != [] {
      MaterializedFor(c[1..], products, pid);
      var rest := Materialized(c[1..], products);
      if Included(products, c[0]) {
        var m := [ItemOf(products, c[0])] + rest;
        assert Materialized(c, products) == m;
        assert m[1..] == rest;
      } else {
        assert Materialized(c, products) == rest;
      }
    }
  }

  /** Materialisation lists each product at most once, and only products of the cart. */
  lemma {:induction false} MaterializedDistinct(c: Cart, products: ProductTable)
    requires DistinctIds(c)
    ensures ItemIds(Materialized(c, products)) <= Ids(c)
    ensures DistinctItems(Materialized(c, products))
  {
    if c != [] {
      MaterializedDistinct(c[1..], products);
      var rest := Materialized(c[1..], products);
      if Included(products, c[0]) {
        var m := [ItemOf(products, c[0])] + rest;
        assert Materialized(c, products) == m;
        assert m[1..] == rest;
      } else {
        assert Materialized(c, products) == rest;
      }
    }
  }

  /**
   * Sweeping changes nothing that is listed, and a second sweep changes
   * nothing: get_cart_items called twice in a row answers the same.
   */
  lemma {:induction false} SweepIsStable(c: Cart, products: ProductTable)
    ensures Materialized(Swept(c, products), products) == Materialized(c, products)
    ensures Swept(Swept(c, products), products) == Swept(c, products)
  {
    if c != [] {
      SweepIsStable(c[1..], products);
      var rest := Swept(c[1..], products);
      if Resolves(products, c[0].id) {
        var s := [c[0]] + rest;
        assert Swept(c, products) == s;
        assert s[1..] == rest;
      }
    }
  }

  /** Entries that resolve but are short of stock stay in the swept cart without being listed. */
  lemma ShortEntriesStay(c: Cart, products: ProductTable, e: CartEntry)
    requires e in c && Resolves(products, e.id) && products[e.id].stock < e.quantity
    ensures e in Swept(c, products)
    ensures forall x :: x in Materialized(c, products) ==> x != ItemOf(products, e)
  {
  }

  /** A successful add leaves an entry that is listed as long as the product's row is unchanged. */
  lemma AddedIsListed(products: ProductTable, c: Cart, pid: ProductId, quantity: int)
    requires DistinctIds(c)
    requires AddCheck(products, c, pid, quantity) == None
    ensures ItemFor(Materialized(Added(c, pid, quantity), products), pid)
      == Some(ItemOf(products, CartEntry(pid, Quantity(c, pid) + quantity)))
  {
    MaterializedFor(Added(c, pid, quantity), products, pid);
  }

  /** update then get_cart_items lists the product with exactly the updated quantity. */
  lemma UpdateIsListed(products: ProductTable, c: Cart, pid: ProductId, quantity: int)
    requires DistinctIds(c)
    requires UpdateCheck(products, pid, quantity) == None
    ensures ItemFor(Materialized(Put(c, pid, quantity), products), pid)
      == Some(ItemOf(products, CartEntry(pid, quantity)))
  {
    MaterializedFor(Put(c, pid, quantity), products, pid);
  }
}
