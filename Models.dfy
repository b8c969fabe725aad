/** The shop database of models.py: five tables (users, products, cart items,
    orders, order items), the constraints the schema puts on their rows, the
    cascade rules, and `Order.calculate_Total`. Money is integer cents
    throughout (the `Numeric(10,2)` columns hold dollars with two decimals). */
module Models {

  datatype Option<T> = None | Some(value: T)

  /** The errors the handlers answer with; the HTTP status is in the comment. */
  datatype Error =
    | UserNotFound                      // 404 "user not found"
    | MissingField                      // 400 "... required"
    | NotAnInteger                      // 400 "... should be integer"
    | NonPositiveQuantity               // 400 "quantity must be > 0"
    | ProductNotFound                   // 404 "product not found"
    | NotFound                          // 404 "not found": missing, or owned by another user
    | EmailExists                       // 409 "Email already exists"
    | BadCredentials                    // 401 "bad credentials"
    | EmptyCart                         // 400 "cart is empty"
    | ProductUnavailable(productId: int)  // 400 "product <id> not available"
    | NotPending                        // 400 "only pending orders can be canceled"
    | ProviderError(message: string)    // 500 "Stripe error: ..."
    | ConstraintViolation               // the commit is refused by a CHECK, UNIQUE or NOT NULL constraint

  datatype Result<T> = Ok(value: T) | Err(error: Error)

  /** What Python's `int(...)` makes of an optional JSON field: the key is absent,
      the conversion succeeds with `n`, or it raises. */
  datatype IntField = Absent | Parses(n: int) | NotInt

  /** The two values the handlers ever write into a `payment_status` column. */
  datatype PaymentStatus = Pending | Paid

  datatype User = User(email: string, phoneNumber: Option<string>, passwordHash: string)

  datatype Product = Product(name: string, price: int, imageUrl: Option<string>,
                             inventory: int, available: bool, description: Option<string>)

  datatype CartItem = CartItem(userId: int, productId: int, quantity: int)

  datatype Order = Order(userId: int, totalPrice: int, paymentStatus: PaymentStatus)

  datatype OrderItem = OrderItem(orderId: int, productId: int, quantity: int, price: int,
                                 paymentStatus: PaymentStatus)

  /** A product a cart row may point at: it exists and is marked available. */
  predicate Orderable(products: map<int, Product>, pid: int)
  {
    pid in products && products[pid].available
  }

  // The queries the handlers run. Each returns the ids below `n` of the rows that
  // match, in ascending order: the order the model gives `filter_by(...).all()`
  // on a table whose ids are all below `n` (`.first()` is the head of the list).
  // The source's queries have no ORDER BY; ascending ids is the model's choice.
  //
  // The six queries share one shape but are written out one per filter rather
  // than as one generic filter taking a predicate: with a function-valued
  // parameter the solver has to instantiate the predicate at every step of the
  // proofs about the handlers, which made those proofs dearer.

  function UsersWithEmail(users: map<int, User>, email: string, n: nat): (ids: seq<int>)
    ensures forall i :: 0 <= i < |ids| ==> ids[i] in users
  {
    if n == 0 then []
    else (UsersWithEmail(users, email, n - 1) +
          (if n - 1 in users && users[n - 1].email == email then [n - 1] else []))
  }

  /** `UsersWithEmail` returns exactly the matching ids below `n`, in ascending order. */
  lemma {:induction false} UsersWithEmailSpec(users: map<int, User>, email: string, n: nat)
    ensures var ids := UsersWithEmail(users, email, n);
      && (forall id :: id in ids <==> 0 <= id < n && id in users && users[id].email == email)
      && (forall i :: 0 <= i < |ids| ==> 0 <= ids[i] < n)
      && (forall i, j :: 0 <= i < j < |ids| ==> ids[i] < ids[j])
  {
    if n > 0 {
      UsersWithEmailSpec(users, email, n - 1);
    }
  }

  function ProductsNamed(products: map<int, Product>, name: string, n: nat): (ids: seq<int>)
    ensures forall i :: 0 <= i < |ids| ==> ids[i] in products
  {
    if n == 0 then []
    else (ProductsNamed(products, name, n - 1) +
          (if n - 1 in products && products[n - 1].name == name then [n - 1] else []))
  }

  /** `ProductsNamed` returns exactly the matching ids below `n`, in ascending order. */
  lemma {:induction false} ProductsNamedSpec(products: map<int, Product>, name: string, n: nat)
    ensures var ids := ProductsNamed(products, name, n);
      && (forall id :: id in ids <==> 0 <= id < n && id in products && products[id].name == name)
      && (forall i :: 0 <= i < |ids| ==> 0 <= ids[i] < n)
      && (forall i, j :: 0 <= i < j < |ids| ==> ids[i] < ids[j])
  {
    if n > 0 {
      ProductsNamedSpec(products, name, n - 1);
    }
  }

  function CartRowsOf(cart: map<int, CartItem>, uid: int, n: nat): (ids: seq<int>)
    ensures forall i :: 0 <= i < |ids| ==> ids[i] in cart
  {
    if n == 0 then []
    else (CartRowsOf(cart, uid, n - 1) +
          (if n - 1 in cart && cart[n - 1].userId == uid then [n - 1] else []))
  }

  /** `CartRowsOf` returns exactly the matching ids below `n`, in ascending order. */
  lemma {:induction false} CartRowsOfSpec(cart: map<int, CartItem>, uid: int, n: nat)
    ensures var ids := CartRowsOf(cart, uid, n);
      && (forall id :: id in ids <==> 0 <= id < n && id in cart && cart[id].userId == uid)
      && (forall i :: 0 <= i < |ids| ==> 0 <= ids[i] < n)
      && (forall i, j :: 0 <= i < j < |ids| ==> ids[i] < ids[j])
  {
    if n > 0 {
      CartRowsOfSpec(cart, uid, n - 1);
    }
  }

  function CartRowsFor(cart: map<int, CartItem>, uid: int, pid: int, n: nat): (ids: seq<int>)
    ensures forall i :: 0 <= i < |ids| ==> ids[i] in cart
  {
    if n == 0 then []
    else (CartRowsFor(cart, uid, pid, n - 1) +
          (if n - 1 in cart && cart[n - 1].userId == uid && cart[n - 1].productId == pid then [n - 1] else []))
  }

  /** `CartRowsFor` returns exactly the matching ids below `n`, in ascending order. */
  lemma {:induction false} CartRowsForSpec(cart: map<int, CartItem>, uid: int, pid: int, n: nat)
    ensures var ids := CartRowsFor(cart, uid, pid, n);
      && (forall id :: id in ids <==> 0 <= id < n && id in cart && cart[id].userId == uid && cart[id].productId == pid)
      && (forall i :: 0 <= i < |ids| ==> 0 <= ids[i] < n)
      && (forall i, j :: 0 <= i < j < |ids| ==> ids[i] < ids[j])
  {
    if n > 0 {
      CartRowsForSpec(cart, uid, pid, n - 1);
    }
  }


  /** With every id below `n`, an empty answer means the user has no row for the product. */
  lemma NoCartRowFor(cart: map<int, CartItem>, uid: int, pid: int, n: nat)
    requires IdsBelow(cart, n) && CartRowsFor(cart, uid, pid, n) == []
    ensures forall id :: id in cart ==> cart[id].userId != uid || cart[id].productId != pid
  {
    CartRowsForSpec(cart, uid, pid, n);
    forall id | id in cart
      ensures cart[id].userId != uid || cart[id].productId != pid
    {
      assert id !in CartRowsFor(cart, uid, pid, n);
    }
  }

  function OrdersOf(orders: map<int, Order>, uid: int, n: nat): (ids: seq<int>)
    ensures forall i :: 0 <= i < |ids| ==> ids[i] in orders
  {
    if n == 0 then []
    else (OrdersOf(orders, uid, n - 1) +
          (if n - 1 in orders && orders[n - 1].userId == uid then [n - 1] else []))
  }

  /** `OrdersOf` returns exactly the matching ids below `n`, in ascending order. */
  lemma {:induction false} OrdersOfSpec(orders: map<int, Order>, uid: int, n: nat)
    ensures var ids := OrdersOf(orders, uid, n);
      && (forall id :: id in ids <==> 0 <= id < n && id in orders && orders[id].userId == uid)
      && (forall i :: 0 <= i < |ids| ==> 0 <= ids[i] < n)
      && (forall i, j :: 0 <= i < j < |ids| ==> ids[i] < ids[j])
  {
    if n > 0 {
      OrdersOfSpec(orders, uid, n - 1);
    }
  }


  /** The relationship `Order.order_items` of order `oid`. */
  function ItemsOf(items: map<int, OrderItem>, oid: int, n: nat): (ids: seq<int>)
    ensures forall i :: 0 <= i < |ids| ==> ids[i] in items
  {
    if n == 0 then []
    else (ItemsOf(items, oid, n - 1) +
          (if n - 1 in items && items[n - 1].orderId == oid then [n - 1] else []))
  }

  /** `ItemsOf` returns exactly the matching ids below `n`, in ascending order. */
  lemma {:induction false} ItemsOfSpec(items: map<int, OrderItem>, oid: int, n: nat)
    ensures var ids := ItemsOf(items, oid, n);
      && (forall id :: id in ids <==> 0 <= id < n && id in items && items[id].orderId == oid)
      && (forall i :: 0 <= i < |ids| ==> 0 <= ids[i] < n)
      && (forall i, j :: 0 <= i < j < |ids| ==> ids[i] < ids[j])
  {
    if n > 0 {
      ItemsOfSpec(items, oid, n - 1);
    }
  }


  /** The rows of `m` at `ids`, each with its id, in the order of `ids`: the list a
      query serialises. */
  function RowsAt<T>(m: map<int, T>, ids: seq<int>): (rows: seq<(int, T)>)
    requires forall i :: 0 <= i < |ids| ==> ids[i] in m
    ensures |rows| == |ids|
    ensures forall i :: 0 <= i < |ids| ==> rows[i] == (ids[i], m[ids[i]])
  {
    if ids == [] then [] else [(ids[0], m[ids[0]])] + RowsAt(m, ids[1..])
  }

  /** Each id of `ids` heads some row of `RowsAt(m, ids)`. */
  lemma RowsAtCovers<T>(m: map<int, T>, ids: seq<int>, id: int)
    requires forall i :: 0 <= i < |ids| ==> ids[i] in m
    requires id in ids
    ensures exists i :: 0 <= i < |RowsAt(m, ids)| && RowsAt(m, ids)[i].0 == id
  {
    var i :| 0 <= i < |ids| && ids[i] == id;
    assert RowsAt(m, ids)[i].0 == id;
  }

  /** `OrderItem.subtotal`: a line costs at least one unit's price, and nothing
      only when the unit price is zero. */
  function Subtotal(item: OrderItem): (r: int)
    ensures item.quantity > 0 && item.price >= 0 ==> item.price <= r && (r == 0 <==> item.price == 0)
  {
    item.quantity * item.price
  }

  /** The subtotal that item `id` contributes to order `oid` (zero when it belongs elsewhere). */
  function LineAt(items: map<int, OrderItem>, oid: int, id: int): int
  {
    if id in items && items[id].orderId == oid then Subtotal(items[id]) else 0
  }

  /** The sum of `quantity * price` over the items of order `oid` with ids below `n`:
      the sum `calculate_Total` takes over `order_items`. */
  function ItemsTotal(items: map<int, OrderItem>, oid: int, n: nat): int
  {
    if n == 0 then 0 else ItemsTotal(items, oid, n - 1) + LineAt(items, oid, n - 1)
  }

  lemma {:induction false} ItemsTotalNonNegative(items: map<int, OrderItem>, oid: int, n: nat)
    requires forall id :: id in items ==> items[id].quantity > 0 && items[id].price >= 0
    ensures ItemsTotal(items, oid, n) >= 0
  {
    if n > 0 {
      ItemsTotalNonNegative(items, oid, n - 1);
      if n - 1 in items && items[n - 1].orderId == oid {
        assert Subtotal(items[n - 1]) >= 0;
      }
    }
  }

  /** Two item tables that give order `oid` the same lines below `n` give it the same total. */
  lemma {:induction false} ItemsTotalFrame(a: map<int, OrderItem>, b: map<int, OrderItem>, oid: int, n: nat)
    requires forall id :: 0 <= id < n ==> LineAt(a, oid, id) == LineAt(b, oid, id)
    ensures ItemsTotal(a, oid, n) == ItemsTotal(b, oid, n)
  {
    if n > 0 {
      ItemsTotalFrame(a, b, oid, n - 1);
    }
  }

  /** Raising the bound past ids that hold no line of `oid` leaves the total as it was. */
  lemma {:induction false} ItemsTotalBeyond(items: map<int, OrderItem>, oid: int, n: nat, m: nat)
    requires n <= m
    requires forall id :: n <= id < m ==> LineAt(items, oid, id) == 0
    ensures ItemsTotal(items, oid, m) == ItemsTotal(items, oid, n)
  {
    if n < m {
      ItemsTotalBeyond(items, oid, n, m - 1);
    }
  }

  // Row invariants the schema enforces.

  ghost predicate IdsBelow<T>(m: map<int, T>, next: nat)
  {
    forall id :: id in m ==> 1 <= id < next
  }

  /** `email` is UNIQUE (models.py:14). */
  ghost predicate UniqueEmails(users: map<int, User>)
  {
    forall a, b :: a in users && b in users && users[a].email == users[b].email ==> a == b
  }

  /** `phone_number` is UNIQUE; NULLs do not collide (models.py:15). */
  ghost predicate UniquePhones(users: map<int, User>)
  {
    forall a, b ::
      (a in users && b in users && users[a].phoneNumber.Some? &&
       users[a].phoneNumber == users[b].phoneNumber) ==> a == b
  }

  /** CHECK price >= 0 and inventory >= 0 (models.py:51, models.py:57). */
  ghost predicate ProductRowsOk(products: map<int, Product>)
  {
    forall id :: id in products ==> products[id].price >= 0 && products[id].inventory >= 0
  }

  /** CHECK quantity > 0, and every cart row belongs to an existing user (the
      cascade of models.py:25 removes a user's rows with the user). */
  ghost predicate CartRowsOk(cart: map<int, CartItem>, users: map<int, User>)
  {
    forall id :: id in cart ==> cart[id].quantity > 0 && cart[id].userId in users
  }

  /** UNIQUE (user_id, product_id) (models.py:105-108). */
  ghost predicate OneRowPerProduct(cart: map<int, CartItem>)
  {
    forall a, b ::
      (a in cart && b in cart && cart[a].userId == cart[b].userId &&
       cart[a].productId == cart[b].productId) ==> a == b
  }

  /** Inserting a row for a (user, product) pair that has none keeps the pairs unique. */
  lemma InsertKeepsOneRowPerProduct(cart: map<int, CartItem>, id: int, c: CartItem)
    requires OneRowPerProduct(cart) && id !in cart
    requires forall other :: other in cart ==> cart[other].userId != c.userId || cart[other].productId != c.productId
    ensures OneRowPerProduct(cart[id := c])
  {
  }

  /** Rewriting a row without changing its (user, product) pair keeps the pairs unique. */
  lemma RewriteKeepsOneRowPerProduct(cart: map<int, CartItem>, id: int, c: CartItem)
    requires OneRowPerProduct(cart) && id in cart
    requires cart[id].userId == c.userId && cart[id].productId == c.productId
    ensures OneRowPerProduct(cart[id := c])
  {
  }

  /** Every order belongs to an existing user and its stored total is the sum of
      its items' subtotals, as `calculate_Total` last left it. */
  ghost predicate OrderRowsOk(orders: map<int, Order>, users: map<int, User>,
                              items: map<int, OrderItem>, nextItem: nat)
  {
    forall id {:trigger orders[id]} :: id in orders ==>
      orders[id].userId in users && orders[id].totalPrice == ItemsTotal(items, id, nextItem)
  }

  /** CHECK quantity > 0 and price >= 0 (models.py:178, models.py:181), and every item
      belongs to an existing order (the cascade of models.py:148). */
  ghost predicate OrderItemRowsOk(items: map<int, OrderItem>, orders: map<int, Order>)
  {
    forall id :: id in items ==>
      items[id].quantity > 0 && items[id].price >= 0 && items[id].orderId in orders
  }

  /** The cart with every row of user `uid` removed. */
  function WithoutCartOf(cart: map<int, CartItem>, uid: int): map<int, CartItem>
  {
    map id | id in cart && cart[id].userId != uid :: cart[id]
  }

  /** The orders with every order of user `uid` removed. */
  function WithoutOrdersOf(orders: map<int, Order>, uid: int): map<int, Order>
  {
    map id | id in orders && orders[id].userId != uid :: orders[id]
  }

  /** The items whose order is still in `orders`. */
  function ItemsOfOrders(items: map<int, OrderItem>, orders: map<int, Order>): map<int, OrderItem>
  {
    map id | id in items && items[id].orderId in orders :: items[id]
  }

  /** Every constraint the schema puts on the five tables, with each table's ids
      below its autoincrement counter. */
  ghost predicate Consistent(users: map<int, User>, products: map<int, Product>,
                             cartItems: map<int, CartItem>, orders: map<int, Order>,
                             orderItems: map<int, OrderItem>, nextUserId: nat, nextProductId: nat,
                             nextCartItemId: nat, nextOrderId: nat, nextOrderItemId: nat)
  {
    && 1 <= nextUserId && 1 <= nextProductId && 1 <= nextCartItemId
    && 1 <= nextOrderId && 1 <= nextOrderItemId
    && IdsBelow(users, nextUserId) && IdsBelow(products, nextProductId)
    && IdsBelow(cartItems, nextCartItemId) && IdsBelow(orders, nextOrderId)
    && IdsBelow(orderItems, nextOrderItemId)
    && UniqueEmails(users) && UniquePhones(users)
    && ProductRowsOk(products)
    && CartRowsOk(cartItems, users) && OneRowPerProduct(cartItems)
    && OrderRowsOk(orders, users, orderItems, nextOrderItemId)
    && OrderItemRowsOk(orderItems, orders)
  }

  /** The database: one map per table, keyed by primary key, and the next id each
      table's autoincrement hands out. */
  class Store {
    var users: map<int, User>
    var products: map<int, Product>
    var cartItems: map<int, CartItem>
    var orders: map<int, Order>
    var orderItems: map<int, OrderItem>
    var nextUserId: nat
    var nextProductId: nat
    var nextCartItemId: nat
    var nextOrderId: nat
    var nextOrderItemId: nat

    /** Every constraint of the schema holds. */
    ghost predicate Valid()
      reads this
    {
      Consistent(users, products, cartItems, orders, orderItems,
                 nextUserId, nextProductId, nextCartItemId, nextOrderId, nextOrderItemId)
    }

    /** The empty database `db.create_all()` leaves. */
    constructor ()
      ensures Valid()
      ensures users == map[] && products == map[] && cartItems == map[]
      ensures orders == map[] && orderItems == map[]
    {
      users, products, cartItems, orders, orderItems := map[], map[], map[], map[], map[];
      nextUserId, nextProductId, nextCartItemId, nextOrderId, nextOrderItemId := 1, 1, 1, 1, 1;
    }

    /** The ids of `uid`'s cart rows, ascending. */
    function CartOf(uid: int): seq<int>
      reads this
    {
      CartRowsOf(cartItems, uid, nextCartItemId)
    }

    /** `Order.calculate_Total`: stores the sum of its items' subtotals as the
        order's total and returns that same value. Nothing else changes. */
    method CalculateTotal(oid: int) returns (total: int)
      requires oid in orders
      modifies this`orders
      ensures total == ItemsTotal(orderItems, oid, nextOrderItemId)
      ensures orders == old(orders)[oid := old(orders)[oid].(totalPrice := total)]
    {
      total := ItemsTotal(orderItems, oid, nextOrderItemId);
      orders := orders[oid := orders[oid].(totalPrice := total)];
    }

    /** Deleting a user: the `cascade="all, delete-orphan"` relationships of
        models.py:25-26 delete the user's cart rows and orders, and that of
        models.py:148 deletes those orders' items. Every other row stays. */
    method DeleteUser(uid: int)
      requires Valid()
      modifies this`users, this`cartItems, this`orders, this`orderItems
      ensures Valid()
      ensures users == old(users) - {uid}
      ensures cartItems == WithoutCartOf(old(cartItems), uid)
      ensures orders == WithoutOrdersOf(old(orders), uid)
      ensures orderItems == ItemsOfOrders(old(orderItems), orders)
    {
      DeleteUserKeepsConsistent(users, products, cartItems, orders, orderItems, nextUserId, nextProductId,
                                nextCartItemId, nextOrderId, nextOrderItemId, uid);
      users := users - {uid};
      cartItems := WithoutCartOf(cartItems, uid);
      orders := WithoutOrdersOf(orders, uid);
      orderItems := ItemsOfOrders(orderItems, orders);
    }
  }

  /** Deleting user `uid` with its cascades keeps every constraint: no order
      left behind loses an item, so every remaining total still holds. */
  lemma DeleteUserKeepsConsistent(users: map<int, User>, products: map<int, Product>,
                                  cart: map<int, CartItem>, orders: map<int, Order>,
                                  items: map<int, OrderItem>, nu: nat, np: nat, nc: nat, no: nat, ni: nat,
                                  uid: int)
    requires Consistent(users, products, cart, orders, items, nu, np, nc, no, ni)
    ensures Consistent(users - {uid}, products, WithoutCartOf(cart, uid), WithoutOrdersOf(orders, uid),
                       ItemsOfOrders(items, WithoutOrdersOf(orders, uid)), nu, np, nc, no, ni)
  {
    var orders' := WithoutOrdersOf(orders, uid);
    var items' := ItemsOfOrders(items, orders');
    forall o | o in orders'
      ensures orders'[o].totalPrice == ItemsTotal(items', o, ni)
    {
      forall id | 0 <= id < ni
        ensures LineAt(items', o, id) == LineAt(items, o, id)
      {
      }
      ItemsTotalFrame(items', items, o, ni);
    }
  }

  /** The stored total of every order is non-negative, as the CHECK of
      models.py:136 demands: it is a sum of non-negative subtotals. */
  lemma OrderTotalsNonNegative(s: Store)
    requires s.Valid()
    ensures forall id :: id in s.orders ==> s.orders[id].totalPrice >= 0
  {
    forall id | id in s.orders
      ensures s.orders[id].totalPrice >= 0
    {
      ItemsTotalNonNegative(s.orderItems, id, s.nextOrderItemId);
    }
  }
}
