# Plant nursery store: a Dafny model of its cart and order logic

This project models the core of a small Django storefront that sells plants.
Visitors browse a catalog and put plants in a cart. The cart is persisted as
`CartItem` rows for a logged-in user and kept in the session for a guest.
Users then check out and follow their orders. The model covers these parts:

- the record shapes, their defaults and their choice lists (`store/models.py`),
  in `models.dfy`. Money is integer cents, since prices are 2-decimal fixed point;
- the catalog listing, with its category filter and its case-insensitive
  search over name or description, in `catalog.dfy`;
- the cart rules, in `carts.dfy`. A requested quantity is capped by the stock.
  It is merged into the existing line and capped again. The cart total is the
  sum of the lines' subtotals (price × quantity), and the cart page is priced
  line by line in a loop.
  One map type from plant id to quantity serves both the persisted cart and
  the session cart;
- the finalize step and the order lookups, in `orders.dfy`. Finalize makes one
  order item per line with a price snapshot. It lowers the stock with a floor
  at 0 and marks a sold-out plant unavailable. The lookups are scoped to the
  calling user;
- the views as methods of a `Store` class over the tables, in `store.dfy`.
  The class has add, remove, the cart page, checkout, the payment page's
  confirmation, and the admin's save of a plant.

## Behaviour worth knowing

- **The persisted cart's database check.** `CartItem.quantity` is a
  `PositiveIntegerField`, and its database CHECK refuses a negative value.
  The requested quantity is `int(...)` of the form field and is never raised
  from below. `get_or_create` first inserts a missing line with the default
  quantity 1. The save of a negative merged quantity then fails, which leaves
  that default line in place, or the old line when one existed. So "the line
  is at most the stock" holds after every guest add and after every
  successful persisted add (`Carts.PersistedAddBounded`). It does not hold
  after a failed one: `Carts.NegativeRequestLeavesDefaultLine` shows a line of
  1 for a plant with stock 0. The model assumes the database enforces the
  CHECK, as SQLite and PostgreSQL do.
- **Missing checkout fields.** Checkout passes each POST field to
  `Order.objects.create` explicitly. A missing field is therefore a NULL in a
  NOT NULL column, and the insert fails. The field defaults ("Customer",
  "Address not provided", ...) apply only when a keyword is omitted, which
  `Models.NewOrder` models; the checkout view never omits one.
- **Payment methods are not validated.** Checkout does not check the stored
  payment method against its choice list. Any value other than "COD" takes
  the online path.
- **The online total can drift.** An online order records the cart total at
  checkout. The payment page then makes items from the cart as it is at
  confirmation. The two can differ, and `Store.OnlineOrderScenario` exhibits
  a recorded 10.00 against 30.00 of items. Cash on delivery cannot drift:
  `Store.Store.Checkout` states that the new order's items, looked up by its
  id as the order page does, cost exactly its recorded total
  (`Orders.FinalizedOrderTotal`).
- **The payment page finalizes on every confirmation.** Its POST fetches the
  order by id and owner only. It does not look at the payment method, the
  status, or whether the order already has items. So confirming a cash on
  delivery order, or confirming an online order a second time, adds a second
  set of items from whatever the cart holds then and lowers the stock again.
  `Store.Store.PaymentPage` states this for any order the caller owns.
- **An empty cart still checks out.** Checkout with an empty cart creates an
  order with total 0 and raises no error.
- **Availability is not tied to stock.** A new plant defaults to stock 0 and
  available true. Only finalize clears `available`, and only when the stock
  runs out, so "unavailable whenever stock is 0" is not an invariant of the
  code and the model does not claim it.
- **Order lookups are scoped to the caller.** The payment, order-success and
  order-detail pages fetch the order by id and owner. An order owned by
  someone else is missing (`DoesNotExist`). The model returns `NotFound` for
  it instead of requiring ownership up front.

## Model

| member | source | states |
|---|---|---|
| `Models.NewPlant` | store/models.py:10-17 | A new plant has stock 0 and is available; the given fields are kept |
| `Models.ParseStatus` | store/models.py:35-40 | Exactly "Pending", "Shipped" and "Delivered" are statuses, and each reads back to its own code |
| `Models.StatusRoundTrip` | store/models.py:35-40 | Every status survives being stored and read back |
| `Models.ParsePayment` | store/models.py:42-51 | Exactly "COD" and "ONLINE" are payment methods, and each reads back to its own code |
| `Models.PaymentRoundTrip` | store/models.py:42-51 | Every payment method survives being stored and read back |
| `Models.NewOrder` | store/models.py:25-54 | A new order is Pending; an omitted payment method is "COD"; each omitted shipping field takes its fixed default and each given one is kept |
| `Models.NewCartItem` | store/models.py:66-69 | A new cart line has quantity 1, which the non-negative column accepts |
| `Models.Subtotal` | store/models.py:71-72 | A line of no units costs nothing; a line with a non-negative price and quantity never costs less than 0 |
| `Models.SubtotalPerUnit` | store/models.py:71-72 | A line's subtotal grows by the unit price with each unit added and drops by it with each unit removed |
| `Catalog.IContains` | store/views.py:28-31 | The search lookup holds exactly when the query occurs in the text at some offset, ignoring case |
| `Catalog.PlantList` | store/views.py:18-31 | Every listed plant is available, in the chosen category, and matches the search in its name or description; every such plant is listed |
| `Catalog.SearchIgnoresCase` | store/views.py:26-31 | "ros" finds "Red Rose" and "ROSEMARY" but not "Tulip" |
| `Store.RequestedQuantity` | store/views.py:46 | The requested quantity is the form value, or 1 when the field is absent; it is not raised from below |
| `Carts.ClampToStock` | store/views.py:48-49 | The capped request is at most the stock and at most the request, and is one of the two |
| `Carts.MergedQuantity` | store/views.py:58-64 | The merged line is at most the stock and at most old plus requested; from a non-negative line it is min(old + requested, stock) |
| `Carts.AddLine` | store/views.py:69-78 | The session cart gains or updates only the added plant's line, to the merged quantity, and that line is at most the stock |
| `Carts.PersistedAdd` | store/views.py:52-66 | A persisted add succeeds exactly when the merged quantity is non-negative and then sets the merged line; otherwise it fails with the created line at 1 or the old line kept; other lines never change |
| `Carts.PersistedAddStorable` | store/models.py:69 | A persisted add keeps every stored quantity non-negative |
| `Carts.PersistedAddBounded` | store/views.py:58-66 | After a successful persisted add the line is between 0 and the stock |
| `Carts.NegativeRequestLeavesDefaultLine` | store/views.py:46-66 | A request of -1 for a plant with stock 0 leaves a persisted line of 1, while the session cart gets -1 |
| `Carts.AddTwiceClampsToStock` | store/views.py:58-64 | With stock 5, adding 3 and then 4 leaves one line of 5 |
| `Carts.CartTotal` | store/views.py:93 | The sum of the lines' subtotals: an empty cart totals 0, and a cart with non-negative prices and quantities never totals below 0 |
| `Carts.CartTotalRemove` | store/views.py:93 | A cart's total is any line's subtotal plus the total of the other lines, in whatever order they are summed |
| `Carts.PriceCart` | store/views.py:101-114 | The cart page succeeds exactly when every line's plant exists; it then shows each line once with its quantity and its subtotal at the current price, and its total is the cart total |
| `Store.Store.CartView` | store/views.py:89-119 | A user's cart page always succeeds; any caller's page shows the lines of the caller's own cart and its total |
| `Store.Store.AddToCart` | store/views.py:42-81 | An unknown plant is not found. Otherwise the caller's cart alone changes: a guest's by the session merge, a user's by the persisted add. A successful add leaves the line at most the stock |
| `Store.Store.RemoveFromCart` | store/views.py:125-136 | Only the plant's line leaves the caller's cart; with no such line nothing changes and nothing fails |
| `Orders.Decrement` | store/views.py:191-195 | Stock becomes max(stock − quantity, 0); a plant that runs out becomes unavailable, otherwise availability is kept; nothing else changes |
| `Store.FinalizeLines` | store/views.py:180-195 | The loop makes exactly one item per cart line, with its plant, its quantity and the plant's price, and leaves every plant lowered by its line |
| `Store.Store.Finalize` | store/views.py:180-197 | Finalizing appends one item per line, lowers the stock of each line's plant and deletes the user's cart; orders and sessions do not change. When the order had no items, its items then cost the cart total |
| `Orders.ItemsForCartTotal` | store/views.py:180-189 | Items made one per line cost, together, the cart total at the prices they copied |
| `Orders.FinalizedTotal` | store/views.py:146-197 | The items of a finalized order add up to the cart total at finalize time |
| `Orders.FinalizedOrderTotal` | store/views.py:146-197 | When an order with no items is finalized, looking its items up finds exactly the new items, and they cost the cart total |
| `Orders.FinalizedEmpty` | store/views.py:180-197 | Finalizing an empty cart adds no item and leaves the stock alone |
| `Store.CheckoutForm.ToOrder` | store/views.py:152-161 | The order row keeps the form's shipping fields and payment method, with the computed total and status Pending |
| `Store.Store.Checkout` | store/views.py:142-201 | A missing form field fails with nothing created. Otherwise a new order records the cart total. Cash on delivery finalizes it, empties the cart, and the order's items cost exactly its recorded total; any other method leaves cart, stock and items as they were, and the order has no items |
| `Store.Store.PaymentPage` | store/views.py:212-237 | Someone else's or a missing order is not found and nothing changes; any order the caller owns, whatever its payment method and whether or not it already has items, is finalized from the current cart, which ends empty, and the order itself is unchanged |
| `Store.OnlineOrderScenario` | store/views.py:142-237 | An online order placed with one fern (10.00) and confirmed after the cart grew to three records 10.00 but gets items worth 30.00 |
| `Store.Store.EditPlant` | store/models.py:59-63 | Saving a plant changes only that plant; existing order items keep their copied price |
| `Orders.FindOrder` | store/views.py:214 | A found order has the id and belongs to the caller; nothing is found when no order has both |
| `Orders.ItemsOf` | store/views.py:274 | An order's items are exactly the items that name the order, and no more of them than there are items |
| `Orders.ItemsOfCounts` | store/views.py:274 | An order's items hold each item that names the order as many times as it is stored, and no other item |
| `Orders.ItemsOfAppend` | store/views.py:274 | The lookup keeps creation order: over two runs of items it is the two lookups joined |
| `Orders.ItemsOfOnly` | store/views.py:274 | Items that all name the order are found unchanged and in order |
| `Orders.NoItemsYet` | store/views.py:274 | Items that all name earlier orders hold nothing of a new order |
| `Orders.OrderDetail` | store/views.py:272-279 | The detail page succeeds exactly when the caller owns an order with that id, and then shows that order and exactly its items, each as many times as it is stored |
| `Orders.MyOrders` | store/views.py:263-265 | "My orders" lists exactly the caller's orders, newest first |

## Left out

- HTML rendering, redirects and flash messages are page output and change no state.
- The GET branches of the plant, checkout and payment pages only render a page.
- `send_mail` at checkout and on the order-success page is external I/O and fails silently. So order success is only its scoped lookup, which `Orders.FindOrder` models.
- Registration, login and `login_required` are handled by the framework's authentication. A caller is given as an `Identity`: a user id or a session id.
- A guest's session cart is not merged into the user's cart at login, because the code never merges them.
- `int(...)` of a quantity that is not a number raises before any change. The model takes the quantity as an already parsed integer.
- A category parameter that is not a number fails the query. The model takes the category as an optional parsed id.
- `created_at` is not modelled. Orders are kept in creation order with ids 1, 2, ..., and "newest first" is by id.
- The case-insensitive search folds ASCII letters only, as SQLite's LIKE does. Other databases' Unicode folding is not modelled.
- The `max_digits` limits of the decimal columns are not modelled. Amounts are unbounded integers of cents.
- The image field and the Category table are not modelled. A plant keeps only its category id.
- Deleting a plant or a category, and the cascade that removes cart lines, order items and session lines with it, is admin work and is not modelled. The guest cart page still returns `NotFound` for a line whose plant is missing.
- The admin panel and the URL table are framework configuration. Only the admin's save of a plant is modelled (`Store.Store.EditPlant`), to show that order items keep their price.
- Concurrent requests, such as two checkouts racing on one plant's stock, are out of scope: the model is sequential.
- Transactions are not modelled. No single view here can half-fail once its first row is written, except the persisted add's failed save, which is modelled.
