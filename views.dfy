/**
 * The cart and checkout views and the order-status endpoint. Each view works
 * on the browser's session (the cart dict) and on the database tables; the
 * JSON, redirect and template answers are returned as values.
 */
module Views {
  import opened Wrappers
  import opened Shop
  import opened Cart
  import opened CartItems
  import opened Checkout

  /** The browser session; `cart` is what get_cart reads and save_cart writes under the 'cart' key. */
  class Session {
    var cart: Cart

    /** A dict holds each key once, and the views only ever store positive quantities. */
    ghost predicate Valid()
      reads this
    {
      DistinctIds(cart) && PositiveQuantities(cart)
    }

    /** A fresh session: get_cart answers an empty dict. */
    constructor ()
      ensures Valid() && cart == []
    {
      cart := [];
    }
  }

  /**
   * The loop of get_cart_items over the cart: it lists each entry whose product
   * resolves with enough stock, adds up the line totals and the quantities, and
   * keeps every entry whose product resolves.
   */
  method CollectCartItems(cart: Cart, products: ProductTable)
    returns (items: seq<CartItem>, total: int, count: int, kept: Cart)
    ensures items == Materialized(cart, products)
    ensures total == TotalOf(items) && count == CountOf(items)
    ensures kept == Swept(cart, products)
  {
    items, total, count, kept := [], 0, 0, [];
    var i := 0;
    while i < |cart|
      invariant 0 <= i <= |cart|
      invariant items == Materialized(cart[..i], products)
      invariant kept == Swept(cart[..i], products)
      invariant total == TotalOf(items) && count == CountOf(items)
    {
      var e := cart[i];
      assert cart[..i + 1] == cart[..i] + [e];
      ListedStep(cart[..i], products, e);
      KeptStep(cart[..i], products, e);
      if Resolves(products, e.id) {
        var product := products[e.id];
        if product.stock >= e.quantity {
          var totalPrice := product.price * e.quantity;
          var item := CartItem(e.id, product, e.quantity, product.price, totalPrice);
          SumsAppend(items, item);
          items := items + [item];
          total := total + totalPrice;
          count := count + e.quantity;
        }
        kept := kept + [e];
      }
      i := i + 1;
    }
    assert cart[..i] == cart;
  }

  lemma {:induction false} SumsAppend(items: seq<CartItem>, x: CartItem)
    ensures TotalOf(items + [x]) == TotalOf(items) + x.totalPrice
    ensures CountOf(items + [x]) == CountOf(items) + x.quantity
  {
    if items != [] {
      assert (items + [x])[1..] == items[1..] + [x];
      SumsAppend(items[1..], x);
    }
  }

  /**
   * get_cart_items: lists the cart against the product table and sweeps the
   * entries whose product is missing or inactive out of the session.
   */
  method GetCartItems(session: Session, db: Database) returns (items: seq<CartItem>, total: int, count: int)
    requires session.Valid()
    modifies session
    ensures session.Valid()
    ensures items == Materialized(old(session.cart), db.products)
    ensures total == TotalOf(items) && count == CountOf(items)
    ensures session.cart == Swept(old(session.cart), db.products)
  {
    var kept;
    items, total, count, kept := CollectCartItems(session.cart, db.products);
    session.cart := kept;
  }

  /** cart_count: the number of units listed. */
  method CartCount(session: Session, db: Database) returns (count: int)
    requires session.Valid()
    modifies session
    ensures session.Valid()
    ensures count == CountOf(Materialized(old(session.cart), db.products))
    ensures session.cart == Swept(old(session.cart), db.products)
  {
    var _, _, c := GetCartItems(session, db);
    count := c;
  }

  /** add_to_cart: on success the requested quantity is added to what the cart holds. */
  method AddToCart(session: Session, db: Database, pid: ProductId, quantity: int) returns (reply: CartReply)
    requires session.Valid()
    modifies session
    ensures session.Valid()
    ensures match AddCheck(db.products, old(session.cart), pid, quantity)
      case Some(e) => reply == Rejected(e) && session.cart == old(session.cart)
      case None => reply == AddedToCart(db.products[pid].name) && session.cart == Added(old(session.cart), pid, quantity)
  {
    var check := AddCheck(db.products, session.cart, pid, quantity);
    if check.Some? {
      return Rejected(check.value);
    }
    var current := Quantity(session.cart, pid);
    session.cart := Put(session.cart, pid, current + quantity);
    reply := AddedToCart(db.products[pid].name);
  }

  /** update_cart: on success the quantity is set to the request, whatever it was. */
  method UpdateCart(session: Session, db: Database, pid: ProductId, quantity: int) returns (reply: CartReply)
    requires session.Valid()
    modifies session
    ensures session.Valid()
    ensures match UpdateCheck(db.products, pid, quantity)
      case Some(e) => reply == Rejected(e) && session.cart == old(session.cart)
      case None => reply == CartUpdated && session.cart == Put(old(session.cart), pid, quantity)
  {
    var check := UpdateCheck(db.products, pid, quantity);
    if check.Some? {
      return Rejected(check.value);
    }
    session.cart := Put(session.cart, pid, quantity);
    reply := CartUpdated;
  }

  /** remove_from_cart: deletes exactly the entry for the id, or fails when there is none. */
  method RemoveFromCart(session: Session, pid: ProductId) returns (reply: CartReply)
    requires session.Valid()
    modifies session
    ensures session.Valid()
    ensures pid in ToMap(old(session.cart)) ==>
      reply == ItemRemoved && ToMap(session.cart) == ToMap(old(session.cart)) - {pid}
      && session.cart == Delete(old(session.cart), pid)
    ensures pid !in ToMap(old(session.cart)) ==>
      reply == Rejected(ItemNotFound) && session.cart == old(session.cart)
  {
    if pid in Ids(session.cart) {
      session.cart := Delete(session.cart, pid);
      reply := ItemRemoved;
    } else {
      reply := Rejected(ItemNotFound);
    }
  }

  /** clear_cart: the cart becomes empty, always. */
  method ClearCart(session: Session)
    modifies session
    ensures session.Valid() && session.cart == []
  {
    session.cart := [];
  }

  /** The answers of the checkout view. */
  datatype CheckoutResult =
    | RedirectToCart                                                 // "Your cart is empty."
    | CheckoutForm(items: seq<CartItem>, total: int, count: int)    // the page, on a GET
    | MissingFields(items: seq<CartItem>, total: int, count: int)   // "Please fill in all required fields."
    | OrderPlaced(orderId: OrderId)                                  // redirect to the confirmation

  /** `all([customer_name, customer_email, shipping_address])`. */
  predicate RequiredFieldsFilled(customer: Customer) {
    customer.name != "" && customer.email != "" && customer.address != ""
  }

  /**
   * The writes of a placed order: the Order row with status pending, then for
   * each listed item its OrderItem row and its product saved with the stock
   * reduced, one item after the other and with no transaction around them.
   */
  method SaveOrder(db: Database, customer: Customer, items: seq<CartItem>) returns (id: OrderId)
    modifies db
    ensures id == old(db.nextOrderId) && db.nextOrderId == id + 1
    ensures db.orders == old(db.orders)[id := Order(customer, Pending, LinesOf(items))]
    ensures db.products == Decremented(old(db.products), items)
  {
    id := db.nextOrderId;
    db.orders := db.orders[id := Order(customer, Pending, [])];
    db.nextOrderId := id + 1;
    assert LinesOf(items[..0]) == [];

    var i := 0;
    while i < |items|
      invariant 0 <= i <= |items|
      invariant db.orders == old(db.orders)[id := Order(customer, Pending, LinesOf(items[..i]))]
      invariant Decremented(db.products, items[i..]) == Decremented(old(db.products), items)
      invariant db.nextOrderId == id + 1
    {
      var x := items[i];
      db.orders := db.orders[id := db.orders[id].(items := db.orders[id].items + [OrderItem(x.productId, x.quantity, x.price)])];
      assert LinesOf(items[..i + 1]) == LinesOf(items[..i]) + [LineOf(x)];
      assert items[i..][1..] == items[i + 1..];
      db.products := db.products[x.productId := x.product.(stock := x.product.stock - x.quantity)];
      i := i + 1;
    }
    assert items[..i] == items;
  }

  /**
   * checkout. The cart is listed (and swept) first; an empty listing redirects
   * to the cart, a GET shows the form, a POST with a required field empty shows
   * the form again; none of these writes to the database. Otherwise one
   * pending order is created holding one item per listed entry at the listed
   * price, each listed product's stock drops by its quantity, and the cart is
   * emptied, skipped entries included.
   */
  method PlaceOrder(session: Session, db: Database, isPost: bool, customer: Customer)
    returns (result: CheckoutResult)
    requires session.Valid() && db.Valid()
    modifies session, db
    ensures session.Valid() && db.Valid()
    ensures var items := Materialized(old(session.cart), old(db.products));
      items == [] || !isPost || !RequiredFieldsFilled(customer) ==>
        && session.cart == Swept(old(session.cart), old(db.products))
        && db.products == old(db.products) && db.orders == old(db.orders) && db.nextOrderId == old(db.nextOrderId)
        && result == (if items == [] then RedirectToCart
                      else if !isPost then CheckoutForm(items, TotalOf(items), CountOf(items))
                      else MissingFields(items, TotalOf(items), CountOf(items)))
    ensures var items := Materialized(old(session.cart), old(db.products));
      items != [] && isPost && RequiredFieldsFilled(customer) ==>
        && result == OrderPlaced(old(db.nextOrderId))
        && old(db.nextOrderId) !in old(db.orders)
        && db.orders == old(db.orders)[old(db.nextOrderId) := Order(customer, Pending, LinesOf(items))]
        && db.nextOrderId == old(db.nextOrderId) + 1
        && db.products == Decremented(old(db.products), items)
        && session.cart == []
    ensures var items := Materialized(old(session.cart), old(db.products));
      items != [] && isPost && RequiredFieldsFilled(customer) ==>
        && TotalAmount(db.orders[old(db.nextOrderId)].items) == TotalOf(items)
        && TotalItems(db.orders[old(db.nextOrderId)].items) == CountOf(items)
        && db.products.Keys == old(db.products).Keys
        && forall pid :: pid in old(db.products) ==>
             db.products[pid] == old(db.products)[pid].(stock := old(db.products)[pid].stock
                                                     - OrderedQuantity(old(session.cart), old(db.products), pid))
  {
    var items, total, count := GetCartItems(session, db);
    if items == [] {
      return RedirectToCart;
    }
    if !isPost {
      return CheckoutForm(items, total, count);
    }
    if !RequiredFieldsFilled(customer) {
      return MissingFields(items, total, count);
    }
    CheckoutStock(old(session.cart), db.products);
    MaterializedDistinct(old(session.cart), db.products);
    LinesDistinct(items);
    MaterializedLineTotals(old(session.cart), db.products);
    OrderTotalsMatchCart(items);
    var id := SaveOrder(db, customer, items);
    session.cart := [];
    result := OrderPlaced(id);
  }

  /** The failures of change_order_status. */
  datatype StatusError =
    | MissingArgument  // "Missing order_id or new_status"
    | InvalidStatus    // "Invalid status"
    | OrderNotFound    // "Order not found"

  /** The answer of change_order_status; a success reports the order id and the old and new status. */
  datatype StatusReply =
    | StatusChanged(orderId: OrderId, oldStatus: string, newStatus: string)
    | StatusRejected(error: StatusError)

  /**
   * The guards of change_order_status, in order; None when all pass. Which
   * status the order has now plays no part: any status may follow any other.
   */
  function StatusCheck(orders: OrderTable, orderId: Option<OrderId>, newStatus: string): (r: Option<StatusError>)
    ensures r == Some(MissingArgument) <==> orderId == None || newStatus == ""
    ensures r == Some(InvalidStatus) <==> orderId != None && newStatus != "" && !IsStatusChoice(newStatus)
    ensures r == None <==> orderId != None && IsStatusChoice(newStatus) && orderId.value in orders
  {
    if orderId == None || newStatus == "" then Some(MissingArgument)
    else if !IsStatusChoice(newStatus) then Some(InvalidStatus)
    else if orderId.value !in orders then Some(OrderNotFound)
    else None
  }

  /** change_order_status: overwrites one order's status, or fails and changes nothing. */
  method ChangeOrderStatus(db: Database, orderId: Option<OrderId>, newStatus: string) returns (reply: StatusReply)
    requires db.Valid()
    modifies db
    ensures db.Valid()
    ensures db.products == old(db.products) && db.nextOrderId == old(db.nextOrderId)
    ensures match StatusCheck(old(db.orders), orderId, newStatus)
      case Some(e) => reply == StatusRejected(e) && db.orders == old(db.orders)
      case None =>
        var id := orderId.value;
        && reply == StatusChanged(id, old(db.orders)[id].status, newStatus)
        && db.orders == old(db.orders)[id := old(db.orders)[id].(status := newStatus)]
  {
    var check := StatusCheck(db.orders, orderId, newStatus);
    if check.Some? {
      return StatusRejected(check.value);
    }
    var id := orderId.value;
    var oldStatus := db.orders[id].status;
    db.orders := db.orders[id := db.orders[id].(status := newStatus)];
    reply := StatusChanged(id, oldStatus, newStatus);
  }
}
