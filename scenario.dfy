/** Two sessions played against the views, end to end. */
module Scenario {
  import opened Shop
  import opened Cart
  import opened CartItems
  import opened Checkout
  import opened Views

  /**
   * A phone at 999.99 with 5 in stock: adding 3 succeeds, adding 3 more fails
   * (6 > 5) and leaves the count at 3, and checking out places an order of
   * 2999.97 for 3 units, leaves 2 in stock and empties the cart.
   */
  method PhoneScenario()
    returns (first: CartReply, second: CartReply, count: int, result: CheckoutResult,
             orderTotal: int, orderItems: int, stockAfter: int, cartAfter: Cart)
    ensures first == AddedToCart("Phone") && second == Rejected(OnlyAvailable(5))
    ensures count == 3
    ensures result == OrderPlaced(1)
    ensures orderTotal == 299997 && orderItems == 3 && stockAfter == 2 && cartAfter == []
  {
    var phone := Product("Phone", 99999, 5, true);
    var db := new Database(map[1 := phone]);
    var session := new Session();
    first := AddToCart(session, db, 1, 3);
    assert session.cart == [CartEntry(1, 3)];
    second := AddToCart(session, db, 1, 3);
    assert Materialized([CartEntry(1, 3)], db.products) == [CartItem(1, phone, 3, 99999, 299997)];
    count := CartCount(session, db);
    var customer := Customer("John Doe", "john@example.com", "", "123 Main St", "");
    result := PlaceOrder(session, db, true, customer);
    var items := db.orders[1].items;
    assert items == [OrderItem(1, 3, 99999)];
    assert db.products == Decremented(map[1 := phone], [CartItem(1, phone, 3, 99999, 299997)]);
    assert db.products[1].stock == 2;
    assert items[1..] == [];
    assert LineTotal(items[0]) == 299997;
    assert TotalAmount(items[1..]) == 0 && TotalItems(items[1..]) == 0;
    orderTotal := TotalAmount(items);
    orderItems := TotalItems(items);
    stockAfter := db.products[1].stock;
    cartAfter := session.cart;
  }

  /** With nothing in the cart, checkout redirects to the cart and creates no order. */
  method EmptyCartScenario() returns (result: CheckoutResult, orders: OrderTable)
    ensures result == RedirectToCart && orders == map[]
  {
    var db := new Database(map[1 := Product("Phone", 99999, 5, true)]);
    var session := new Session();
    result := PlaceOrder(session, db, true, Customer("Jane", "jane@example.com", "", "1 Oak St", ""));
    orders := db.orders;
  }
}
