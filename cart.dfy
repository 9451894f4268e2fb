/**
 * The session cart: the dict stored under the session's 'cart' key, mapping a
 * product id to a requested quantity, and the guard checks the cart views run
 * before they change it.
 */
module Cart {
  import opened Wrappers
  import opened Shop

  /** One key/value pair of the cart dict. */
  datatype CartEntry = CartEntry(id: ProductId, quantity: int)

  /** The cart dict in insertion order, the order in which Python iterates it. */
  type Cart = seq<CartEntry>

  /** The keys of the dict. */
  function Ids(c: Cart): set<ProductId> {
    if c == [] then {} else {c[0].id} + Ids(c[1..])
  }

  /** Every key occurs once, as in a dict. */
  predicate DistinctIds(c: Cart) {
    c == [] || (c[0].id !in Ids(c[1..]) && DistinctIds(c[1..]))
  }

  predicate PositiveQuantities(c: Cart) {
    forall e :: e in c ==> e.quantity > 0
  }

  /** The dict the sequence stands for; the first entry for a key wins. */
  function ToMap(c: Cart): (m: map<ProductId, int>)
    ensures m.Keys == Ids(c)
  {
    if c == [] then map[] else ToMap(c[1..])[c[0].id := c[0].quantity]
  }

  /** `cart.get(pid, 0)`. */
  function Quantity(c: Cart, pid: ProductId): (q: int)
    ensures q == if pid in ToMap(c) then ToMap(c)[pid] else 0
    ensures PositiveQuantities(c) ==> q >= 0
  {
    if c == [] then 0
    else if c[0].id == pid then c[0].quantity
    else Quantity(c[1..], pid)
  }

  /** `cart[pid] = q`: an existing entry is overwritten in place, a new key is appended. */
  function Put(c: Cart, pid: ProductId, q: int): (r: Cart)
    ensures ToMap(r) == ToMap(c)[pid := q]
    ensures DistinctIds(c) ==> DistinctIds(r)
    ensures PositiveQuantities(c) && q > 0 ==> PositiveQuantities(r)
  {
    if c == [] then [CartEntry(pid, q)]
    else if c[0].id == pid then [CartEntry(pid, q)] + c[1..]
    else
      var rest := Put(c[1..], pid, q);
      assert Ids(rest) == Ids(c[1..]) + {pid} by { assert ToMap(rest).Keys == Ids(rest); }
      [c[0]] + rest
  }

  /** `del cart[pid]`. */
  function Delete(c: Cart, pid: ProductId): (r: Cart)
    ensures DistinctIds(c) ==> DistinctIds(r) && ToMap(r) == ToMap(c) - {pid}
    ensures PositiveQuantities(c) ==> PositiveQuantities(r)
  {
    if c == [] then []
    else if c[0].id == pid then c[1..]
    else
      var rest := Delete(c[1..], pid);
      assert DistinctIds(c) ==> Ids(rest) == Ids(c[1..]) - {pid} by {
        if DistinctIds(c) { assert ToMap(rest).Keys == Ids(rest); }
      }
      [c[0]] + rest
  }

  /** Two assignments to the same key leave what the second alone leaves. */
  lemma {:induction false} PutPut(c: Cart, pid: ProductId, a: int, b: int)
    ensures Put(Put(c, pid, a), pid, b) == Put(c, pid, b)
  {
    if c == [] {
    } else if c[0].id == pid {
      assert Put(c, pid, a)[1..] == c[1..];
    } else {
      PutPut(c[1..], pid, a, b);
      assert Put(c, pid, a)[1..] == Put(c[1..], pid, a);
    }
  }

  /** The failures of the cart views, one per message they answer with. */
  datatype CartError =
    | InvalidQuantity            // "Invalid quantity"
    | ProductNotFound            // "Product not found"
    | NotEnoughStock             // "Not enough stock available"
    | OnlyAvailable(stock: int)  // "Only <stock> items available in stock"
    | ItemNotFound               // "Item not found in cart"

  /** The `success`/`message` answer of a cart view. */
  datatype CartReply =
    | AddedToCart(name: string)  // "<name> added to cart successfully!"
    | CartUpdated
    | ItemRemoved
    | Rejected(error: CartError)

  /** `Product.objects.get(id=pid, is_active=True)` finds a row. */
  predicate Resolves(products: ProductTable, pid: ProductId) {
    pid in products && products[pid].isActive
  }

  /**
   * The guards of add_to_cart, in the order the view runs them, for a product
   * of which the cart already holds `held` units; None when all pass. The
   * first failing guard decides the error.
   */
  function AddGuards(products: ProductTable, pid: ProductId, held: int, quantity: int): Option<CartError> {
    if quantity <= 0 then Some(InvalidQuantity)
    else if !Resolves(products, pid) then Some(ProductNotFound)
    else if products[pid].stock < quantity then Some(NotEnoughStock)
    else if held + quantity > products[pid].stock then Some(OnlyAvailable(products[pid].stock))
    else None
  }

  /** add_to_cart's guards, with `held` read from the cart as `cart.get(pid, 0)`. */
  function AddCheck(products: ProductTable, c: Cart, pid: ProductId, quantity: int): (r: Option<CartError>)
    ensures quantity <= 0 ==> r == Some(InvalidQuantity)
    ensures quantity > 0 && !Resolves(products, pid) ==> r == Some(ProductNotFound)
    ensures r == Some(NotEnoughStock) <==>
      quantity > 0 && Resolves(products, pid) && products[pid].stock < quantity
    ensures r.Some? && r.value.OnlyAvailable? <==>
      quantity > 0 && Resolves(products, pid) && quantity <= products[pid].stock < Quantity(c, pid) + quantity
    ensures r.Some? && r.value.OnlyAvailable? ==> r.value.stock == products[pid].stock
    ensures PositiveQuantities(c) ==>
      (r == None <==> quantity > 0 && Resolves(products, pid) && Quantity(c, pid) + quantity <= products[pid].stock)
  {
    AddGuards(products, pid, Quantity(c, pid), quantity)
  }

  /**
   * The guards of update_cart: the same quantity and existence checks as
   * add_to_cart, but the stock check compares the new quantity alone and
   * answers with the number in stock.
   */
  function UpdateCheck(products: ProductTable, pid: ProductId, quantity: int): (r: Option<CartError>)
    ensures quantity <= 0 ==> r == Some(InvalidQuantity)
    ensures quantity > 0 && !Resolves(products, pid) ==> r == Some(ProductNotFound)
    ensures r.Some? && r.value.OnlyAvailable? <==>
      quantity > 0 && Resolves(products, pid) && products[pid].stock < quantity
    ensures r.Some? && r.value.OnlyAvailable? ==> r.value.stock == products[pid].stock
    ensures r == None <==> 0 < quantity && Resolves(products, pid) && quantity <= products[pid].stock
  {
    if quantity <= 0 then Some(InvalidQuantity)
    else if !Resolves(products, pid) then Some(ProductNotFound)
    else if products[pid].stock < quantity then Some(OnlyAvailable(products[pid].stock))
    else None
  }

  /** The cart add_to_cart leaves when its guards pass: the new quantity is the old one plus the request. */
  function Added(c: Cart, pid: ProductId, quantity: int): Cart {
    Put(c, pid, Quantity(c, pid) + quantity)
  }

  /**
   * After a successful add the product's quantity in the cart is at most its
   * stock, and every other key keeps its quantity.
   */
  lemma AddKeepsWithinStock(products: ProductTable, c: Cart, pid: ProductId, quantity: int)
    requires AddCheck(products, c, pid, quantity) == None
    ensures Quantity(Added(c, pid, quantity), pid) == Quantity(c, pid) + quantity <= products[pid].stock
    ensures forall k :: k != pid ==> Quantity(Added(c, pid, quantity), k) == Quantity(c, k)
  {
  }

  /**
   * Two successful adds of the same product accumulate: the second passes
   * exactly when one add of the sum would, and then leaves the same cart.
   */
  lemma {:induction false} RepeatedAddsAccumulate(products: ProductTable, c: Cart, pid: ProductId, q1: int, q2: int)
    requires PositiveQuantities(c)
    requires AddCheck(products, c, pid, q1) == None
    ensures q2 > 0 ==>
      (AddCheck(products, Added(c, pid, q1), pid, q2) == None <==> AddCheck(products, c, pid, q1 + q2) == None)
    ensures Added(Added(c, pid, q1), pid, q2) == Added(c, pid, q1 + q2)
  {
    PutPut(c, pid, Quantity(c, pid) + q1, Quantity(c, pid) + q1 + q2);
  }

  /**
   * An update sets the quantity outright: whatever an earlier add left under
   * the key is discarded, and the key reads back as the new quantity.
   */
  lemma UpdateOverwrites(c: Cart, pid: ProductId, q0: int, q: int)
    ensures Put(Added(c, pid, q0), pid, q) == Put(c, pid, q)
    ensures Quantity(Put(c, pid, q), pid) == q
  {
    PutPut(c, pid, Quantity(c, pid) + q0, q);
  }
}
