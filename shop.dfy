/**
 * The rows of the storefront's relational schema as the cart, the checkout
 * and the admin see them: Product, Order and OrderItem. Money is in integer
 * cents (the schema's decimals have two places).
 */
module Shop {
  type ProductId = nat
  type OrderId = nat

  /** A Product row: display name, unit price in cents, units in stock, and the purchasability flag. */
  datatype Product = Product(name: string, price: int, stock: int, isActive: bool)

  /** An OrderItem row: the product, the quantity, and the unit price snapshotted when the order was placed. */
  datatype OrderItem = OrderItem(product: ProductId, quantity: int, price: int)

  /** The customer fields of an Order, as the checkout form submits them (a missing field is ""). */
  datatype Customer = Customer(name: string, email: string, phone: string, address: string, notes: string)

  /** An Order row with the OrderItem rows it owns, in creation order. */
  datatype Order = Order(customer: Customer, status: string, items: seq<OrderItem>)

  const Pending: string := "pending"
  const Processing: string := "processing"
  const Shipped: string := "shipped"
  const Delivered: string := "delivered"
  const Cancelled: string := "cancelled"

  /** The five values of Order.STATUS_CHOICES. */
  const StatusChoices: seq<string> := [Pending, Processing, Shipped, Delivered, Cancelled]

  predicate IsStatusChoice(s: string) {
    s in StatusChoices
  }

  /** OrderItem.total_price. */
  function LineTotal(item: OrderItem): int {
    item.quantity * item.price
  }

  /** Order.total_amount: the sum of the items' total prices. */
  function TotalAmount(items: seq<OrderItem>): int {
    if items == [] then 0 else LineTotal(items[0]) + TotalAmount(items[1..])
  }

  /** Order.total_items: the sum of the items' quantities. */
  function TotalItems(items: seq<OrderItem>): int {
    if items == [] then 0 else items[0].quantity + TotalItems(items[1..])
  }

  /** The (order, product) uniqueness constraint: a product appears at most once in an order. */
  predicate DistinctProducts(items: seq<OrderItem>) {
    forall i, j :: 0 <= i < j < |items| ==> items[i].product != items[j].product
  }

  type ProductTable = map<ProductId, Product>
  type OrderTable = map<OrderId, Order>

  /** The Product and Order tables, and the next id the Order table will hand out. */
  class Database {
    var products: ProductTable
    var orders: OrderTable
    var nextOrderId: OrderId

    /**
     * Stock is a non-negative integer column, every order's status is one of
     * the five choices, every order id was handed out already, and no order
     * holds a product twice.
     */
    ghost predicate Valid()
      reads this
    {
      && (forall pid :: pid in products ==> products[pid].stock >= 0)
      && (forall id :: id in orders ==> id < nextOrderId)
      && (forall id :: id in orders ==> IsStatusChoice(orders[id].status))
      && (forall id :: id in orders ==> DistinctProducts(orders[id].items))
    }

    constructor (products: ProductTable)
      requires forall pid :: pid in products ==> products[pid].stock >= 0
      ensures Valid()
      ensures this.products == products && orders == map[] && nextOrderId == 1
    {
      this.products := products;
      orders := map[];
      nextOrderId := 1;
    }
  }
}
