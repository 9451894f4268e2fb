# Retail storefront: session cart, checkout and order administration

A Dafny model of the business core of a small Django storefront: the
session-backed shopping cart, the checkout that turns the cart into an order
and takes the ordered units out of stock, the endpoint that changes an order's
status, and the back-office rules for order items, bulk actions and the order
admin's permissions.

State is kept where the source keeps it:

- the cart is the dict stored under the session's `cart` key. It is modelled as
  an insertion-ordered sequence of `(product id, quantity)` entries, which is
  how Python iterates a dict. The keys are the coerced product ids; the
  string keys the session really holds are modelled in `KeyAliasing`. `Cart.ToMap` gives the dict it stands for.
  `Cart.Put` models `cart[k] = v` and `Cart.Delete` models `del cart[k]`.
  `Views.Session` holds that field: `get_cart` reads it, `save_cart` writes it,
  and a new session starts with an empty dict;
- the Product and Order tables are maps in `Shop.Database`. The views and admin
  actions reassign them. An order owns its OrderItem rows. The order's
  `total_amount` and `total_items` are `Shop.TotalAmount` and `Shop.TotalItems`
  over those rows;
- money is in integer cents, since the source's decimals have two places.

Modules: `Shop` (rows and tables), `Cart` (the cart dict and the cart views'
guards), `CartItems` (what `get_cart_items` lists, totals and sweeps), `Checkout`
(what a placed order writes), `Views` (the views, imperative), `Admin` (admin
rules), `SweepFinding` (the sweep loop as written), `KeyAliasing` (the cart
keyed by the request's string, as written) and `Scenario` (two end-to-end
sessions).

Notes on the code's behaviour, which the model follows:

- checkout tests for an empty listing first. On a GET it then shows the form.
  Only on a POST does it check the required fields;
- checkout runs without a transaction. Its writes happen in sequence. On a
  cart keyed by product ids the model proves that none of them can fail. The
  session actually keys the cart by the request's spelling of the id, and two
  spellings of one id make the second order line fail after the earlier
  writes are saved (see Findings);
- `add_to_cart` has two stock failures: "Not enough stock available" when the
  request alone exceeds stock, and "Only N items available in stock" when the
  request plus what the cart holds exceeds it. `update_cart` answers the second
  message when the request exceeds stock;
- the listing drops an entry that is short of stock, but the sweep deletes only
  entries whose product is missing or inactive.

## Model

| member | source | states |
|---|---|---|
| `Cart.ToMap` | core/views.py:14-22 | the cart sequence stands for a dict whose keys are exactly the entries' ids |
| `Cart.Quantity` | core/views.py:152 | `cart.get(pid, 0)`: the dict's value for the key, 0 when absent, never negative in a cart of positive quantities |
| `Cart.Put` | core/views.py:158 | `cart[pid] = q` gives the dict updated at that key only, and keeps keys distinct and quantities positive |
| `Cart.Delete` | core/views.py:209-210 | `del cart[pid]` gives the dict without that key, and keeps keys distinct and quantities positive |
| `Cart.AddCheck` | core/views.py:140-156 | the add guards fail in order (invalid quantity, product not found, not enough stock, only N available with N the stock); all pass iff quantity > 0, the product exists and is active, and cart quantity plus request is at most the stock |
| `Cart.UpdateCheck` | core/views.py:179-188 | the update guards fail in order (invalid quantity, product not found, only N available); all pass iff 0 < quantity <= stock of an existing active product |
| `Cart.AddKeepsWithinStock` | core/views.py:152-158 | after a successful add, the cart holds old quantity plus request, at most the stock, and every other key is unchanged |
| `Cart.RepeatedAddsAccumulate` | core/views.py:151-158 | two adds of the same product accumulate: the second passes iff one add of the sum would, and leaves the same cart |
| `Cart.UpdateOverwrites` | core/views.py:190-192 | `cart[pid] = quantity` discards whatever an earlier add left under the key, and the key reads back as the new quantity |
| `CartItems.Materialized` | core/views.py:32-44 | an item is listed iff it comes from a cart entry whose product exists, is active and has stock >= quantity; the item carries that product, quantity, unit price and price x quantity |
| `CartItems.Swept` | core/views.py:45-48 | the swept cart keeps exactly the entries whose product exists and is active, with keys distinct and quantities positive |
| `CartItems.ListedStep` | core/views.py:32-44 | the listing follows the cart's order: an appended entry adds its item, if included, at the end |
| `CartItems.KeptStep` | core/views.py:32-48 | the sweep keeps the cart's order: an appended entry is kept, at the end, iff its product resolves |
| `CartItems.MaterializedFor` | core/views.py:34-42 | per product: the listing holds an item for it iff the product is in the cart, resolves and has enough stock, and then the item has the cart quantity and the current price |
| `CartItems.MaterializedDistinct` | core/views.py:32-42 | the listing holds each product at most once, and only products in the cart |
| `CartItems.SweepIsStable` | core/views.py:25-50 | listing the swept cart gives the same items, and sweeping again changes nothing: two calls in a row answer the same |
| `CartItems.ShortEntriesStay` | core/views.py:35-48 | an entry whose product resolves but is short of stock is not listed and stays in the cart |
| `CartItems.AddedIsListed` | core/views.py:35-44 | after a successful add the product is listed with old quantity plus request, while its row is unchanged |
| `CartItems.UpdateIsListed` | core/views.py:187-192 | after a successful update the listing shows exactly the updated quantity |
| `Checkout.DecrementedFor` | core/views.py:261-271 | saving distinct items writes each listed product's row with stock reduced by its quantity and leaves other rows alone |
| `Checkout.CheckoutStock` | core/views.py:261-271 | checkout keeps the set of products; each product's stock drops by exactly the quantity ordered (0 if not listed) and nothing else changes; stock that the order takes from stays >= 0, and stock >= 0 everywhere is preserved |
| `Checkout.OrderTotalsMatchCart` | core/views.py:261-267 | the order's total_amount equals the cart total and its total_items the cart count |
| `Checkout.MaterializedLineTotals` | core/views.py:36-41 | every listed item's line total is unit price x quantity |
| `Checkout.LinesDistinct` | core/views.py:261-267 | the order's items hold each product once, so the (order, product) uniqueness constraint holds |
| `Views.Session.constructor` | core/views.py:14-17 | a new session has an empty cart |
| `Views.CollectCartItems` | core/views.py:32-48 | the loop lists `Materialized`, sums line totals and quantities, and keeps the `Swept` entries |
| `Views.GetCartItems` | core/views.py:25-50 | answers the listing, total and count, and leaves the swept cart in the session |
| `Views.CartCount` | core/views.py:220-223 | answers the number of listed units (and sweeps the session) |
| `Views.AddToCart` | core/views.py:133-164 | on a failing guard the cart is unchanged and the error is answered; otherwise the product's quantity becomes old plus request, nothing else changes, and the answer names the product |
| `Views.UpdateCart` | core/views.py:172-194 | on a failing guard the cart is unchanged; otherwise the product's quantity is set to the request, adding the key if absent |
| `Views.RemoveFromCart` | core/views.py:202-214 | a present id is deleted and nothing else; an absent id answers "Item not found in cart" and changes nothing |
| `Views.ClearCart` | core/views.py:301-305 | the cart becomes empty unconditionally |
| `Views.SaveOrder` | core/views.py:250-271 | creates one pending order under a new id with one item per listed entry at its listed price, and saves each product with its stock reduced |
| `Views.PlaceOrder` | core/views.py:226-284 | an empty listing, a GET or a missing required field writes nothing to the database (only the sweep); otherwise exactly one pending order is added, its totals equal the cart's, each listed product's stock drops by its quantity and stays >= 0, other products are unchanged, and the cart is empty |
| `Views.StatusCheck` | core/views.py:325-335 | missing argument, status outside the five choices, unknown order, in that order; all pass iff the status is a choice and the order exists, whatever its current status |
| `Views.ChangeOrderStatus` | core/views.py:319-345 | on failure no order changes; otherwise only that order's status becomes the new one, and the answer reports old and new status |
| `Admin.OrderItemForm.constructor` | core/admin.py:17-29 | a saved item with a product and a falsy price takes the product's price; otherwise an initial product id that exists sets the initial price to that product's price; a missing product leaves the form alone |
| `Admin.Clean` | core/admin.py:31-48 | negative quantity is rejected but 0 or none passes; a negative price is rejected but 0 or none passes; with a product and a truthy quantity above stock it is rejected naming the stock; otherwise the data comes back unchanged |
| `Admin.SetActive` | core/admin.py:147-155 | sets `is_active` on exactly the selected products and answers how many rows matched |
| `Admin.ActivateProducts` | core/admin.py:147-150 | exactly the selected products become active, others are unchanged, the count of matched rows is answered |
| `Admin.DeactivateProducts` | core/admin.py:152-155 | exactly the selected products become inactive, others are unchanged, the count of matched rows is answered |
| `Admin.SetStatus` | core/admin.py:252-270 | sets the status of exactly the selected orders and answers how many rows matched |
| `Admin.MarkAsProcessing` | core/admin.py:252-255 | the selected orders become processing, others are unchanged, the count is answered |
| `Admin.MarkAsShipped` | core/admin.py:257-260 | the selected orders become shipped, others are unchanged, the count is answered |
| `Admin.MarkAsDelivered` | core/admin.py:262-265 | the selected orders become delivered, others are unchanged, the count is answered |
| `Admin.MarkAsCancelled` | core/admin.py:267-270 | the selected orders become cancelled, others are unchanged, the count is answered |
| `Admin.StatusBadge` | core/admin.py:231-239 | pending, processing, shipped, delivered and cancelled get `bg-warning`, `bg-info`, `bg-primary`, `bg-success` and `bg-danger`; the badge is `bg-secondary` iff the status is not one of the five choices |
| `Admin.BadgesDistinct` | core/admin.py:232-238 | the five statuses have five different badges |
| `Admin.HandleOrderAdmin` | core/admin.py:197-210 | editing, adding, deleting and opening the change page are refused; what succeeds keeps the set of orders and changes nothing but statuses, which stay among the five choices |
| `SweepFinding.AsWrittenFailsOnStale` | core/views.py:32-48 | the loop as written raises iff the cart holds an entry whose product is missing or inactive, and otherwise lists the same items as the intended loop |
| `SweepFinding.StaleEntryCrashes` | core/views.py:45-48 | a cart with one unit of a vanished product raises, where the intended loop lists nothing and sweeps the entry |
| `KeyAliasing.LeadingZeroAliases` | core/views.py:137-144 | every non-empty digit key has a different key, with a leading zero, that coerces to the same product id |
| `KeyAliasing.RawPutOther` | core/views.py:158 | `cart[key] = q` leaves the value under every other key string as it was |
| `KeyAliasing.RawPutQuantity` | core/views.py:158 | `cart[key] = q` reads back as `q` under that key |
| `KeyAliasing.AliasedAddPasses` | core/views.py:137-158 | as written, an add that passed passes again under a fresh leading-zero spelling, and the product then holds the old quantity plus twice the request across the two keys |
| `KeyAliasing.AliasedAddsExceedStock` | core/views.py:137-158 | as written, with stock 5, adds of 5 as "7" and as "07" both pass; the listing holds 10 units, and the order lines repeat the product |
| `KeyAliasing.CanonicalAddIsCapped` | core/views.py:148-158 | with the key coerced before it is stored, two adds under any two spellings of one id hold at most the stock |
| `KeyAliasing.CanonicalRejectsAlias` | core/views.py:148-156 | with coerced keys, the "07" add after the "7" add is refused with "Only 5 items available" |
| `Scenario.PhoneScenario` | core/views.py:133-277 | phone at 999.99 with 5 in stock: add 3 succeeds, add 3 more answers "Only 5 items available", count is 3, checkout places order 1 totalling 2999.97 for 3 units, stock is 2, cart is empty |
| `Scenario.EmptyCartScenario` | core/views.py:228-232 | checkout with an empty cart redirects to the cart and creates no order |

## Left out

- The HTTP layer is not modelled: JSON and form parsing, `str(product_id)` and `int(quantity)`, the `'Invalid request data'` and generic exception catch-alls, JsonResponse, redirects, the messages framework and templates. Results are returned as values, and their message texts appear only as comments.
- Product and order ids are natural numbers. `KeyAliasing` models the cart's keys as decimal spellings of at least one ASCII digit, leading zeros included. Ids the model does not represent, and what the source does with them:
  - `add_to_cart` and `update_cart`, an empty or non-numeric `product_id`: once the quantity guard has passed (core/views.py:140, 179), the lookup's integer coercion raises ValueError, and the view answers "Invalid request data" (core/views.py:166-167, 196-197). With a quantity of 0 or less, "Invalid quantity" comes first.
  - `remove_from_cart`, any spelling: the id is never coerced. It is tested against the keys as a string (core/views.py:206-214), so an empty or non-numeric id answers "Item not found in cart", and so does "07" when the cart holds "7". The model's `Views.RemoveFromCart` takes the coerced id.
  - `change_order_status`, an empty `order_id`: it answers "Missing order_id or new_status" (core/views.py:325-326). The model writes this as `None`.
  - `change_order_status`, a non-numeric `order_id`: the lookup raises ValueError, which the inner `except Order.DoesNotExist` does not catch. The outer `except Exception` answers the exception's own text (core/views.py:347-348).
  - Surrounding whitespace, a sign, underscores between digits and non-ASCII decimal digits (" 7", "+7", "7_0", "７"): the integer coercion accepts them as spellings of an existing id. They are further aliases of the same kind as "07", and they widen the key-aliasing finding without changing it.
- A missing form field and an empty one are both falsy in the source, and both are modelled as `""`. A missing `order_id` is `None`.
- core/models.py is not part of this model. Field shapes come from the tests: price, stock and `is_active` for products, the five status choices, totals as sums, and the (order, product) uniqueness.
- Transactions, concurrent requests and the oversell race between two checkouts are outside a sequential model. The same goes for what the session middleware saves when a request fails.
- Catalogue browsing (`home`, `products`: search, filtering, pagination) is left out. So are `order_confirmation`, `get_product_price` (which converts to float), `health_check` and `debug_info` (clock, environment, settings).
- Admin presentation is left out: HTML badges and thumbnails, `formfield_overrides`, the inline and the User admin. `delete_selected_products` is left out too: it is a transactional delete plus message formatting.
- `Cart.AddKeepsWithinStock`: holds per cart key. The model keys the cart by the coerced id; with two spellings of one id the session can hold more than the stock (`KeyAliasing.AliasedAddsExceedStock`).
- `Checkout.LinesDistinct`: holds for carts keyed by coerced ids. With aliased keys the listing repeats a product, and the order lines are not distinct.
- `Views.PlaceOrder`: is stated for carts keyed by coerced ids. With aliased keys the second line for a product violates the (order, product) uniqueness. The order row, the earlier lines and their stock decrements stay saved, and the cart is not cleared. That failure path is not modelled.
- `Admin.HandleOrderAdmin`: Django's admin dispatch, which consults the permission hooks, is abstracted to one function over the Order table. The three permission hooks are constants that this function uses.
- `Views.AddToCart`, `Views.UpdateCart`, `Views.RemoveFromCart`, `Views.GetCartItems`, `Views.CartCount`: these require the session invariant (distinct keys, positive quantities). That invariant holds because only these views write the cart.

## Findings

| source | as written | input that shows it | evidently intended | confidence | as-written member | corrected member |
|---|---|---|---|---|---|---|
| core/views.py:32-48 | `del cart[product_id]` runs inside `for ... in cart.items()`; the iterator's next step raises RuntimeError, so every page that lists the cart fails once a product in it is deleted or deactivated | a session cart `{"7": 1}` where product 7 no longer exists | the stale entry is removed (the comment at line 46) and the page renders | high; not executed | `SweepFinding.AsWrittenFailsOnStale` | `Views.GetCartItems` |
| core/views.py:137-158 | the cart is keyed by `str(product_id)`, while the product lookup coerces the key to an integer, so the stock guard reads the quantity held under that spelling only | stock 5; add 5 with `product_id` 7, then 5 with `product_id` "07" | the held quantity is read per product, so the second add answers "Only 5 items available in stock" | high; not executed | `KeyAliasing.AliasedAddsExceedStock` | `KeyAliasing.CanonicalAddIsCapped` |
