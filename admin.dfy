/**
 * The back-office rules: the OrderItem form's defaulting and validation, the
 * bulk product and order actions, the status badge, and the Order admin's
 * refusal of every edit except a status change.
 */
module Admin {
  import opened Wrappers
  import opened Shop

  /** Python truthiness of an optional number: None and 0 are false. */
  predicate Truthy(v: Option<int>) {
    v.Some? && v.value != 0
  }

  /**
   * OrderItemForm, as far as its constructor touches it: the bound item's
   * primary key, product and price, and the form's `initial` dict.
   */
  class OrderItemForm {
    var instancePk: Option<int>
    var instanceProduct: Option<Product>
    var instancePrice: Option<int>
    var initial: map<string, int>

    /**
     * `__init__`: a saved item with a product and a falsy price (None or 0)
     * takes the product's price; otherwise a form whose `initial` names a
     * product gets that product's price as initial price, unless the product
     * does not exist.
     */
    constructor (pk: Option<int>, product: Option<Product>, price: Option<int>,
                 initial: map<string, int>, products: ProductTable)
      ensures instancePk == pk && instanceProduct == product
      ensures Truthy(pk) && product.Some? ==>
        && this.initial == initial
        && instancePrice == (if Truthy(price) then price else Some(product.value.price))
      ensures !(Truthy(pk) && product.Some?) ==>
        && instancePrice == price
        && this.initial ==
          (if "product" in initial && initial["product"] != 0
              && initial["product"] >= 0 && initial["product"] as ProductId in products
           then initial["price" := products[initial["product"] as ProductId].price]
           else initial)
    {
      instancePk := pk;
      instanceProduct := product;
      instancePrice := price;
      this.initial := initial;
      new;
      if Truthy(pk) && product.Some? {
        if !Truthy(price) {
          instancePrice := Some(product.value.price);
        }
      } else if "product" in initial && initial["product"] != 0 {
        var id := initial["product"];
        if id >= 0 && id as ProductId in products {
          this.initial := this.initial["price" := products[id as ProductId].price];
        }
      }
    }
  }

  /** What `clean` reads from `cleaned_data`; a missing key and a None value are both None. */
  datatype ItemFormData = ItemFormData(quantity: Option<int>, price: Option<int>, product: Option<Product>)

  datatype CleanError =
    | QuantityNotPositive   // "Quantity must be greater than 0."
    | NegativePrice         // "Price cannot be negative."
    | StockShort(stock: int)  // "Not enough stock available. Only <stock> items in stock."

  /**
   * OrderItemForm.clean. Its guards test truthiness first, so a quantity of 0
   * (or none) and a price of 0 (or none) pass; the stock check only runs when
   * a product is chosen and the quantity is truthy. A form that passes comes
   * back unchanged.
   */
  function Clean(d: ItemFormData): (r: Result<ItemFormData, CleanError>)
    ensures r.Success? ==> r.value == d
    ensures r == Failure(QuantityNotPositive) <==> d.quantity.Some? && d.quantity.value < 0
    ensures r == Failure(NegativePrice) <==>
      !(d.quantity.Some? && d.quantity.value < 0) && d.price.Some? && d.price.value < 0
    ensures (r.Failure? && r.error.StockShort?) <==>
      && !(d.quantity.Some? && d.quantity.value < 0)
      && !(d.price.Some? && d.price.value < 0)
      && d.product.Some? && Truthy(d.quantity) && d.product.value.stock < d.quantity.value
    ensures r.Failure? && r.error.StockShort? ==> r.error.stock == d.product.value.stock
  {
    if Truthy(d.quantity) && d.quantity.value <= 0 then Failure(QuantityNotPositive)
    else if Truthy(d.price) && d.price.value < 0 then Failure(NegativePrice)
    else if d.product.Some? && Truthy(d.quantity) && d.product.value.stock < d.quantity.value
    then Failure(StockShort(d.product.value.stock))
    else Success(d)
  }

  /** The Product table with `is_active` set to `active` on the selected rows. */
  function WithActive(products: ProductTable, selected: set<ProductId>, active: bool): ProductTable {
    map pid | pid in products :: if pid in selected then products[pid].(isActive := active) else products[pid]
  }

  /** `queryset.update(is_active=active)`: one UPDATE over the selected rows; answers the number of rows matched. */
  method SetActive(db: Database, selected: set<ProductId>, active: bool) returns (updated: nat)
    requires db.Valid()
    modifies db
    ensures db.Valid()
    ensures db.products == WithActive(old(db.products), selected, active)
    ensures updated == |selected * old(db.products).Keys|
    ensures db.orders == old(db.orders) && db.nextOrderId == old(db.nextOrderId)
  {
    updated := |selected * db.products.Keys|;
    db.products := WithActive(db.products, selected, active);
  }

  /** ProductAdmin.activate_products. */
  method ActivateProducts(db: Database, selected: set<ProductId>) returns (updated: nat)
    requires db.Valid()
    modifies db
    ensures db.Valid()
    ensures db.products.Keys == old(db.products).Keys
    ensures forall pid :: pid in db.products ==>
      db.products[pid] == if pid in selected then old(db.products)[pid].(isActive := true) else old(db.products)[pid]
    ensures updated == |selected * old(db.products).Keys|
    ensures db.orders == old(db.orders) && db.nextOrderId == old(db.nextOrderId)
  {
    updated := SetActive(db, selected, true);
  }

  /** ProductAdmin.deactivate_products. */
  method DeactivateProducts(db: Database, selected: set<ProductId>) returns (updated: nat)
    requires db.Valid()
    modifies db
    ensures db.Valid()
    ensures db.products.Keys == old(db.products).Keys
    ensures forall pid :: pid in db.products ==>
      db.products[pid] == if pid in selected then old(db.products)[pid].(isActive := false) else old(db.products)[pid]
    ensures updated == |selected * old(db.products).Keys|
    ensures db.orders == old(db.orders) && db.nextOrderId == old(db.nextOrderId)
  {
    updated := SetActive(db, selected, false);
  }

  /** The Order table with the selected orders' status overwritten. */
  function WithStatus(orders: OrderTable, selected: set<OrderId>, status: string): OrderTable {
    map id | id in orders :: if id in selected then orders[id].(status := status) else orders[id]
  }

  /** `queryset.update(status=status)`: one UPDATE over the selected rows; answers the number of rows matched. */
  method SetStatus(db: Database, selected: set<OrderId>, status: string) returns (updated: nat)
    requires db.Valid() && IsStatusChoice(status)
    modifies db
    ensures db.Valid()
    ensures db.orders == WithStatus(old(db.orders), selected, status)
    ensures updated == |selected * old(db.orders).Keys|
    ensures db.products == old(db.products) && db.nextOrderId == old(db.nextOrderId)
  {
    updated := |selected * db.orders.Keys|;
    db.orders := WithStatus(db.orders, selected, status);
  }

  /** OrderAdmin.mark_as_processing. */
  method MarkAsProcessing(db: Database, selected: set<OrderId>) returns (updated: nat)
    requires db.Valid()
    modifies db
    ensures db.Valid()
    ensures db.orders == WithStatus(old(db.orders), selected, Processing)
    ensures updated == |selected * old(db.orders).Keys|
    ensures db.products == old(db.products) && db.nextOrderId == old(db.nextOrderId)
  {
    updated := SetStatus(db, selected, Processing);
  }

  /** OrderAdmin.mark_as_shipped. */
  method MarkAsShipped(db: Database, selected: set<OrderId>) returns (updated: nat)
    requires db.Valid()
    modifies db
    ensures db.Valid()
    ensures db.orders == WithStatus(old(db.orders), selected, Shipped)
    ensures updated == |selected * old(db.orders).Keys|
    ensures db.products == old(db.products) && db.nextOrderId == old(db.nextOrderId)
  {
    updated := SetStatus(db, selected, Shipped);
  }

  /** OrderAdmin.mark_as_delivered. */
  method MarkAsDelivered(db: Database, selected: set<OrderId>) returns (updated: nat)
    requires db.Valid()
    modifies db
    ensures db.Valid()
    ensures db.orders == WithStatus(old(db.orders), selected, Delivered)
    ensures updated == |selected * old(db.orders).Keys|
    ensures db.products == old(db.products) && db.nextOrderId == old(db.nextOrderId)
  {
    updated := SetStatus(db, selected, Delivered);
  }

  /** OrderAdmin.mark_as_cancelled. */
  method MarkAsCancelled(db: Database, selected: set<OrderId>) returns (updated: nat)
    requires db.Valid()
    modifies db
    ensures db.Valid()
    ensures db.orders == WithStatus(old(db.orders), selected, Cancelled)
    ensures updated == |selected * old(db.orders).Keys|
    ensures db.products == old(db.products) && db.nextOrderId == old(db.nextOrderId)
  {
    updated := SetStatus(db, selected, Cancelled);
  }

  /** OrderAdmin.status_display's colour: one badge class per status, `bg-secondary` for anything else. */
  function StatusBadge(status: string): (badge: string)
    ensures status == Pending ==> badge == "bg-warning"
    ensures status == Processing ==> badge == "bg-info"
    ensures status == Shipped ==> badge == "bg-primary"
    ensures status == Delivered ==> badge == "bg-success"
    ensures status == Cancelled ==> badge == "bg-danger"
    ensures badge == "bg-secondary" <==> !IsStatusChoice(status)
  {
    var colors := map[
      Pending := "bg-warning",
      Processing := "bg-info",
      Shipped := "bg-primary",
      Delivered := "bg-success",
      Cancelled := "bg-danger"
    ];
    if status in colors then colors[status] else "bg-secondary"
  }

  /** The five statuses get five different badges. */
  lemma BadgesDistinct(s: string, t: string)
    requires IsStatusChoice(s) && IsStatusChoice(t) && s != t
    ensures StatusBadge(s) != StatusBadge(t)
  {
  }

  function HasChangePermission(): bool { false }
  function HasAddPermission(): bool { false }
  function HasDeletePermission(): bool { false }

  /** The four bulk actions of the Order admin. */
  datatype OrderAction = MarkProcessing | MarkShipped | MarkDelivered | MarkCancelled

  function ActionStatus(a: OrderAction): string {
    match a
    case MarkProcessing => Processing
    case MarkShipped => Shipped
    case MarkDelivered => Delivered
    case MarkCancelled => Cancelled
  }

  /** What an admin user can ask of the Order admin. */
  datatype OrderAdminRequest =
    | EditOrder(id: OrderId, replacement: Order)
    | AddOrder(id: OrderId, order: Order)
    | DeleteOrder(id: OrderId)
    | OpenChangeView(id: OrderId)
    | RunAction(action: OrderAction, selected: set<OrderId>)

  datatype AdminDenied = PermissionDenied

  /**
   * The Order admin's answer to a request, with the permission hooks consulted
   * before an edit, an addition or a deletion, and `change_view` refusing
   * outright. Whatever is asked, no order appears, disappears or changes
   * anything but its status, and statuses stay among the five choices.
   */
  function HandleOrderAdmin(orders: OrderTable, request: OrderAdminRequest): (r: Result<OrderTable, AdminDenied>)
    ensures !request.RunAction? ==> r == Failure(PermissionDenied)
    ensures r.Success? ==> r.value.Keys == orders.Keys
    ensures r.Success? ==> forall id :: id in orders ==> r.value[id] == orders[id].(status := r.value[id].status)
    ensures r.Success? ==> forall id :: id in orders && IsStatusChoice(orders[id].status) ==> IsStatusChoice(r.value[id].status)
  {
    match request
    case EditOrder(id, replacement) =>
      if HasChangePermission() && id in orders then Success(orders[id := replacement]) else Failure(PermissionDenied)
    case AddOrder(id, order) =>
      if HasAddPermission() then Success(orders[id := order]) else Failure(PermissionDenied)
    case DeleteOrder(id) =>
      if HasDeletePermission() then Success(orders - {id}) else Failure(PermissionDenied)
    case OpenChangeView(_) =>
      Failure(PermissionDenied)
    case RunAction(action, selected) =>
      Success(WithStatus(orders, selected, ActionStatus(action)))
  }
}
