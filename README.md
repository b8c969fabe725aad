# Shop state machine

A Dafny model of the backend of a small Flask shop. It covers five database tables (users, products,
cart items, orders and order items) and what the HTTP handlers do to them:

- the cart (`carts.py`);
- turning a cart into an order, then paying or cancelling it (`orders.py`);
- the checkout with an external payment provider (`payment.py`);
- the product catalogue and its sync from the provider's product feed (`products.py`);
- registering and logging in (`auth.py`).

The model proves that every handler keeps the schema's constraints. For each handler it states when the
request succeeds, which error it gives otherwise, what it changes and what it leaves alone. Lemmas and
small two-call methods relate the handlers to each other.

The modules follow the source files:

- **`Models`** (`models.py`)
  - Holds the row datatypes and the `Store` class: one `map<int, Row>` field per table, plus the
    autoincrement counter of each table.
  - Holds the queries the handlers run. The source's queries have no `ORDER BY`; the model answers a
    `filter_by(...).all()` in ascending id order and takes the lowest id as its `.first()` (see
    "Left out").
  - `Store.Valid()` is the schema:
    - the CHECK constraints;
    - the UNIQUE email, phone number, and (user, product) cart pair;
    - foreign keys kept by the cascades;
    - every order's stored total equal to the sum of its items' subtotals, as `calculate_Total` leaves it;
    - every id below its table's counter.
- **`Floats`**: enough of Python's binary64 `float` arithmetic (round to nearest, ties to even) to follow
  the unit amount of payment.py:46 exactly.
- **`Carts`, `Orders`, `Payment`, `Products`, `Auth`**
  - One method per handler. It takes the store and the caller's user id (the identity a JWT would carry).
  - A handler that only reads is a function.
  - Errors are `Result` values. Each error case says the tables are unchanged, because an early return
    leaves the session uncommitted.
  - Loops in the source are `while` loops proved against a specification function: `Snapshot`,
    `CartTotal`, `LineItems`, `SyncAll`, `PaidItems`, `WithoutRows`.

Money is integer cents. The one place where the source's float arithmetic changes an amount is
recorded under "Findings". Things the model does not compute are parameters:

- the payment provider's answer (`ProviderOutcome`);
- the product feed (a sequence of `FeedProduct`, or `None` when listing it fails);
- whether an API key is configured;
- the password hash and its check (`hash`, `verify`).

## Model

| member | source | states |
|---|---|---|
| Models.Subtotal | models.py:195-197 | a line with positive quantity costs at least its unit price, and costs nothing exactly when the unit price is zero |
| Models.ItemsTotalNonNegative | models.py:136 | with positive quantities and non-negative prices, an order's sum of subtotals is non-negative |
| Models.ItemsTotalFrame | models.py:151-152 | an order's total depends only on that order's lines |
| Models.ItemsTotalBeyond | models.py:151-152 | ids that hold no line of the order do not change its total |
| Models.UsersWithEmailSpec | auth.py:28 | the email query returns exactly the users with that email, in ascending id order |
| Models.ProductsNamedSpec | products.py:42 | the name query returns exactly the products with that name, in ascending id order |
| Models.CartRowsOfSpec | carts.py:28 | the cart query returns exactly the caller's rows, in ascending id order |
| Models.CartRowsForSpec | carts.py:71 | the (user, product) query returns exactly the matching rows, in ascending id order |
| Models.NoCartRowFor | carts.py:71-72 | an empty answer means the user has no row for the product |
| Models.OrdersOfSpec | orders.py:23 | the order query returns exactly the caller's orders, in ascending id order |
| Models.ItemsOfSpec | orders.py:114 | `order.order_items` is exactly the items whose order is that order |
| Models.RowsAt | carts.py:29 | the serialised list has one row per id, in order, each with that id's row |
| Models.InsertKeepsOneRowPerProduct | models.py:105-108 | inserting a row for a (user, product) pair with no row keeps the pair unique |
| Models.RewriteKeepsOneRowPerProduct | models.py:105-108 | changing a row's quantity keeps the (user, product) pairs unique |
| Models.Store.CalculateTotal | models.py:151-154 | sets the order's total to the sum of its items' subtotals and returns that value; no other order changes |
| Models.Store.DeleteUser | models.py:25-26 | the cascades remove the user, exactly their cart rows and orders, and those orders' items; the schema still holds |
| Models.DeleteUserKeepsConsistent | models.py:25-26 | after the cascades no remaining order has lost an item, so every constraint, totals included, still holds |
| Models.OrderTotalsNonNegative | models.py:136 | in a valid store every stored order total is non-negative, as the CHECK demands |
| Carts.ListCart | carts.py:15-29 | unknown caller: 404; otherwise the list holds exactly the caller's rows, each once with its stored value, ascending by id |
| Carts.AddQuantity | carts.py:42-54 | an absent quantity means 1; a non-integer and a quantity of 0 or less are rejected with their own errors |
| Carts.UpdateQuantity | carts.py:111-119 | a missing quantity, a non-integer and a quantity of 0 or less are rejected; otherwise it is the new quantity |
| Carts.FindCartRow | carts.py:71 | `.first()` of the (user, product) query: none exactly when there is no such row, otherwise the lowest matching id |
| Carts.AddToCart | carts.py:35-80 | the checks in the handler's order, and each error leaves the cart unchanged; the request succeeds exactly when every check passes; on success the caller's row for the product grows by the quantity, or else exactly one new row is inserted; uniqueness is kept |
| Carts.AddTwiceMerges | carts.py:66-80 | two accepted adds of the same product leave one row whose quantity is their sum (2 then 3 gives 5) |
| Carts.MergeIntoCart | carts.py:71-76 | grows the existing (user, product) row or inserts exactly one row under the next id |
| Carts.GrowRow | carts.py:73 | only that row's quantity changes, by `q` |
| Carts.InsertRow | carts.py:75-76 | exactly one row is added under the next id; the schema still holds |
| Carts.UpdateCart | carts.py:88-126 | unknown caller, a missing or foreign row, or a bad quantity: error and no change; when all checks pass it succeeds, the quantity is replaced and no other row changes |
| Carts.DeleteCartItem | carts.py:133-157 | unknown caller, or a missing or foreign row: error and no change; otherwise it succeeds and exactly that row is removed |
| Orders.SnapshotAt | orders.py:50-62 | the snapshot holds exactly one item per cart row, at consecutive ids, the i-th made from the i-th row |
| Orders.SnapshotGrow | orders.py:50-62 | each loop iteration adds exactly one item, at the next id |
| Orders.FirstUnorderableSpec | orders.py:50-53 | no failure exactly when every row's product exists and is available; otherwise the failure names the product of the earliest bad row |
| Orders.FirstUnorderableAt | orders.py:50-53 | the loop stops at the first row whose product is missing or unavailable |
| Orders.CartTotalNonNegative | models.py:136 | a cart's total is non-negative when quantities are positive and prices non-negative |
| Orders.SnapshotTotal | orders.py:65 | `calculate_Total` on the new order gives the cart's total of price times quantity |
| Orders.SnapshotKeepsOtherTotals | orders.py:55-62 | a snapshot leaves every other order's total as it was |
| Orders.PlaceOrderKeepsConsistent | orders.py:44-66 | a new pending order with its snapshot items and the cart's total keeps every constraint |
| Orders.DropCartRowsKeepsConsistent | orders.py:69 | deleting cart rows keeps every constraint |
| Orders.PaidItems | orders.py:114-115 | the order's items are paid, every other item is unchanged, and only the status field changes |
| Orders.PayKeepsConsistent | orders.py:113-117 | marking an order and its items paid changes no total and keeps every constraint |
| Orders.CancelKeepsConsistent | orders.py:142-143 | deleting an order with its items leaves every other total as it was and keeps every constraint |
| Orders.ListOrders | orders.py:13-24 | unknown caller: 404; otherwise exactly the caller's orders, each once, ascending by id |
| Orders.GetOrder | orders.py:78-92 | succeeds exactly when the caller exists and owns the order; otherwise 404 "user not found" or "not found" |
| Orders.StageItems | orders.py:50-62 | the loop returns the first unorderable product, and otherwise exactly the snapshot items |
| Orders.CommitKeepsConsistent | orders.py:65-66 | the committed order's computed total equals the cart's total, and the schema holds after the commit |
| Orders.CommitOrder | orders.py:44-66 | one new pending order under the next id, with the cart's total and exactly the snapshot items |
| Orders.ClearCart | orders.py:69-70 | exactly the caller's cart rows are removed |
| Orders.PlaceOrder | orders.py:44-72 | unorderable product: that product's error with nothing changed; otherwise the order, its items and total, and the caller's cart emptied, other carts untouched |
| Orders.CreateOrderFromCart | orders.py:30-72 | unknown caller, empty cart, or unorderable product: the matching error with no change; otherwise it succeeds with a new pending order of the whole cart with its total, and the caller's cart cleared |
| Orders.PaidAmongItemsOf | orders.py:114 | marking the listed items of the order is marking the order's items |
| Orders.MarkItemsPaid | orders.py:114-115 | every item of the order becomes paid; nothing else changes |
| Orders.MarkOrderPaid | orders.py:98-118 | failed lookup: its error and no change; otherwise the order and all its items become paid, whatever their status was |
| Orders.CancelOrder | orders.py:124-144 | failed lookup: its error; a non-pending order: 400; a pending order of the caller is always cancelled, and the order and exactly its items are deleted |
| Payment.LineItemsAt | payment.py:35-53 | one provider line per cart row, in order, the i-th made from the i-th row |
| Payment.ChargedIsCartTotal | payment.py:38-46 | with unit amounts in exact cents, the lines' unit amounts times quantities sum to the cart's total (the source truncates instead; see "Findings") |
| Payment.UnitAmountOf1999Cents | payment.py:46 | `int(float(price) * 100)` turns a price of 19.99 into 1998 cents |
| Payment.ChargedAsWrittenFallsShort | payment.py:38-62 | with the unit amount as written, a cart of a 19.99 product asks the provider for less than the order's total |
| Floats.DoubleOf1999Cents | payment.py:46 | `float` of 19.99 is the double 5626684784446013 / 2^48 |
| Floats.HundredTimesDoubleOf1999Cents | payment.py:46 | that double times 100 rounds to 1998.9999999999998 |
| Payment.BuildLineItems | payment.py:32-53 | the accumulator loop builds exactly those lines and the cart's total |
| Payment.SnapshotItems | payment.py:65-72 | one order item per cart row with no availability check: exactly the snapshot |
| Payment.CheckoutKeepsConsistent | payment.py:56-74 | the order with the accumulated total and its items keep every constraint |
| Payment.CommitCheckoutOrder | payment.py:56-74 | the pending order with the accumulated total under the next id, then exactly its snapshot items |
| Payment.WithoutCallerRows | payment.py:95-97 | deleting the rows read at the start removes exactly the caller's cart |
| Payment.CallerRowsExist | payment.py:35-36 | when all the caller's rows point at existing products, every row the loop reads does |
| Payment.DeleteRows | payment.py:95-97 | exactly the given rows are deleted |
| Payment.CreateCheckoutSession | payment.py:16-103 | unknown caller or empty cart: error, nothing written or sent; otherwise the order and its items are committed before the provider call; on failure "Stripe error: " plus the message, with the order kept and the cart untouched; on success exactly the rows read are deleted and the URL and order id are returned, and that order reads back as the caller's pending order with the cart's total |
| Products.StepKeeps | products.py:42-60 | one record keeps every product's id, name and inventory, and adds a product exactly when no product has its name |
| Products.StepTouchesOnlyNamed | products.py:42-60 | one record changes only products with its name; what it adds has its name and inventory 0 |
| Products.StepSetsFields | products.py:44-59 | after one record some product with its name carries its price, availability, image and description |
| Products.SyncKeeps | products.py:32-60 | the sync keeps every product's id, name and inventory |
| Products.SyncLeavesUnnamed | products.py:32-60 | a product whose name no record carries is left as it was |
| Products.SyncCoversFeed | products.py:32-60 | after the sync every record's name is some product's name |
| Products.SyncAddsFromFeed | products.py:50-60 | every added product has inventory 0 and the name of some record |
| Products.SyncLastWins | products.py:32-60 | after the sync, a product named like the last record carries that record's fields |
| Products.StepKeepsProductRowsOk | products.py:35-39 | a synced price is a unit amount or 0, so prices and inventories stay non-negative |
| Products.SyncKeepsProductRowsOk | products.py:32-60 | the whole sync keeps prices and inventories non-negative |
| Products.SyncKeepsConsistent | products.py:32-63 | the sync keeps every constraint |
| Products.ApplyRecord | products.py:33-60 | one loop iteration updates the store as one sync step does |
| Products.SyncFeed | products.py:16-63 | with no API key or a failed listing nothing changes; otherwise the catalogue becomes the sync of every record in order |
| Products.CreateInventory | products.py:108-112 | an inventory that does not convert is rejected; an absent one is 0; a converted one is its value |
| Products.CreateProduct | products.py:83-128 | missing name or price, unknown caller, non-integer inventory, or negative price or inventory: error and no change; otherwise exactly one product with the given fields, inventory 0 and available by default |
| Products.GetProduct | products.py:135-143 | the product exactly when it exists, otherwise 404 |
| Products.ApplyPatchIdempotent | products.py:169-183 | applying the same body twice is applying it once |
| Products.AssignFields | products.py:169-183 | each field present is assigned and each absent one kept; a non-integer inventory is an error |
| Products.UpdateProduct | products.py:150-187 | unknown caller, missing product, non-integer inventory, or negative price or inventory: error and no change; otherwise exactly that product is replaced by its patched version; a body with no keys returns the product and changes nothing |
| Products.DeleteProduct | products.py:194-212 | unknown caller or missing product: error and no change; otherwise exactly that product is removed, and reading it afterwards gives 404 |
| Auth.StoredPhone | auth.py:20 | an empty or missing phone number is stored as null, and a non-empty one as given |
| Auth.RegisterKeepsConsistent | auth.py:32-35 | adding a user with a fresh email and phone number keeps every constraint |
| Auth.FindUserByEmail | auth.py:28 | `.first()` of the email query: none exactly when no user has the email |
| Auth.Register | auth.py:14-38 | missing email or password: 400; existing email: 409; phone number in use: refused; each error leaves the table unchanged; otherwise exactly one user with that email, phone and `hash(password)` under the next id |
| Auth.Login | auth.py:43-68 | missing email or password: 400; otherwise success exactly when a user has the email and `verify` accepts its hash, else 401; the token's identity is the email |
| Auth.RegisterThenLogin | auth.py:14-68 | once a registration is accepted, the user logs in with the same email and password when `verify` accepts `hash(password)` |

## Left out

- HTTP plumbing is not modelled: routing, JSON bodies, response shapes, status codes and JWT decoding. The caller is a user id, and a request body is a datatype of optional fields.
- Error-message text is not modelled, only which error is returned. `get_product` answers "user not found" for a missing product (products.py:140). The model calls that `ProductNotFound`.
- The answers of carts.py:52 and carts.py:54 are Python sets, which `jsonify` cannot serialise. The model treats both as a rejection that changes nothing.
- Payment.ChargedIsCartTotal is stated for the corrected unit amount, the price in exact cents. The source computes `int(float(price) * 100)` (payment.py:46), which truncates and can charge a cent less per unit than the order's total (see "Findings").
- Payment.LineFor uses the price in cents itself as the unit amount; the amount the source computes is Payment.UnitAmountAsWritten, used only by the counterexample.
- The order total of payment.py:38-39 is a float sum stored into a `Numeric(10,2)` column. The model takes the exact sum of price times quantity; the float error of that sum is not modelled.
- Floats models only normal binary64 values. Subnormals, infinities and overflow are left out; money amounts never reach them.
- Carts.ListCart, Orders.ListOrders, Orders.FirstUnorderableSpec and Carts.FindCartRow assume the queries answer in ascending id order. The source's queries (carts.py:28, carts.py:71, orders.py:23, orders.py:40) have no `ORDER BY`, so the database may answer in another order; that order decides the list order and which product the "unavailable" error names.
- The payment provider's SDK is left out. Its answer is the `ProviderOutcome` input; the URLs and metadata sent with the request are not modelled.
- Payment.CreateCheckoutSession requires every one of the caller's cart rows to point at an existing product. The source reads `item.product` without a check (payment.py:36) and would fail on a missing one.
- Payment.CreateCheckoutSession keeps the pending order and its items when the provider fails, as the source does (payment.py:62, payment.py:74). No cleanup of that order is modelled.
- The product feed and its paging are left out. The feed is a sequence of records given to `SyncFeed`, and the listing failing is `None`.
- The log messages of `add_stripe_products` are not modelled.
- `list_products` is not modelled. It is the sync followed by listing every product.
- Products.SyncFeed and Auth.FindUserByEmail: the `.first()` of a query with no `ORDER BY` is modelled as the matching row with the lowest id.
- The hash, its check and token creation are left out. `hash` and `verify` are parameters, and a token is modelled by the identity it carries; its expiry is not modelled.
- Timestamps (`created_at`), `to_dict` and `isoformat` are not modelled.
- Concurrency and double submits are not modelled. Each handler is one transaction.
- Column lengths (`String(120)` and the like) and `Numeric(10,2)` overflow are not modelled.
- JSON values of the wrong type are not modelled: a string price, a null name, a non-boolean `available`. Only a non-integer inventory or quantity is an error in the model.
- Auth.Register refuses a phone number another user already has, with `ConstraintViolation`. In the source that is the UNIQUE constraint of models.py:15 raising at the commit, which the handler does not catch.
- Products.CreateProduct and Products.UpdateProduct refuse a negative price or inventory with `ConstraintViolation`. In the source that is the CHECK constraints raising at the commit.
- Orders.StageItems builds the order items before the order row is inserted, while the source inserts the order first (orders.py:45-47). The two cannot be told apart: a failure returns before any commit, so the session is never committed.
- The autoincrement counters never reuse an id, including after deletes.
- What the database does when a deleted product is still referenced by cart or order rows is not modelled. The model deletes the product and keeps those rows.
- Adding a product that does not exist to the cart is rejected (carts.py:57-59), even though the cart tests send a name and a price; the model follows the code.
- `chat.py`, `app.py` and `extensions.py` are not part of this model. They hold the chat client, the app factory and library singletons.

## Findings

| source | as written | input that shows it | evidently intended | confidence | as-written member | corrected member |
|---|---|---|---|---|---|---|
| payment.py:46 | the provider's unit amount is `int(float(product.price) * 100)`: the double product is truncated | a product priced 19.99: `float(19.99) * 100` is 1998.9999999999998, sent as 1998 cents, while the order records 19.99 per unit (payment.py:38, payment.py:62) | the unit amount is the price in cents, 1999, so the provider charges the order's total | high (derived by proof; not executed) | Payment.ChargedAsWrittenFallsShort | Payment.ChargedIsCartTotal |
