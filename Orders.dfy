/** The order engine of orders.py: turning the caller's cart into an order, and
    reading, paying and cancelling the caller's orders. The snapshot of a cart
    into order items is shared with the checkout of payment.py. */
module Orders {
  import opened Models

  // ---------------------------------------------------------------------------
  // Snapshotting a cart into order items

  /** Every id of `rows` is a row of `cart`. */
  ghost predicate RowsIn(rows: seq<int>, cart: map<int, CartItem>)
  {
    forall i :: 0 <= i < |rows| ==> rows[i] in cart
  }

  /** The price a snapshot copies from product `pid` (`ci.product.price`); a
      missing product, which the handlers never snapshot, contributes 0. */
  function PriceOf(products: map<int, Product>, pid: int): int
  {
    if pid in products then products[pid].price else 0
  }

  /** The order item made from cart row `c` for order `oid`: same product and
      quantity, the product's current price, and the default status `pending`
      (models.py:184). */
  function ItemFor(oid: int, c: CartItem, products: map<int, Product>): (item: OrderItem)
    ensures item.orderId == oid && item.productId == c.productId && item.quantity == c.quantity
    ensures item.price == PriceOf(products, c.productId) && item.paymentStatus == Pending
  {
    OrderItem(oid, c.productId, c.quantity, PriceOf(products, c.productId), Pending)
  }

  /** The order items a snapshot of the cart rows `rows` inserts for order `oid`,
      under the consecutive ids `first`, `first + 1`, ...: the i-th row becomes the
      item with id `first + i`. */
  function Snapshot(oid: int, first: int, rows: seq<int>, cart: map<int, CartItem>,
                    products: map<int, Product>): map<int, OrderItem>
    requires RowsIn(rows, cart)
  {
    if rows == [] then map[]
    else
      var n := |rows| - 1;
      assert RowsIn(rows[..n], cart);
      Snapshot(oid, first, rows[..n], cart, products)[first + n := ItemFor(oid, cart[rows[n]], products)]
  }

  /** The snapshot holds exactly the ids `first` .. `first + |rows| - 1`, and the
      item at `first + i` is made from the i-th row. */
  lemma {:induction false} SnapshotAt(oid: int, first: int, rows: seq<int>, cart: map<int, CartItem>,
                                      products: map<int, Product>)
    requires RowsIn(rows, cart)
    ensures forall k :: k in Snapshot(oid, first, rows, cart, products) <==> first <= k < first + |rows|
    ensures forall i :: 0 <= i < |rows| ==>
      Snapshot(oid, first, rows, cart, products)[first + i] == ItemFor(oid, cart[rows[i]], products)
  {
    if rows != [] {
      var n := |rows| - 1;
      assert RowsIn(rows[..n], cart);
      SnapshotAt(oid, first, rows[..n], cart, products);
      forall i | 0 <= i < n
        ensures rows[..n][i] == rows[i]
      {
      }
    }
  }

  /** The sum of `price * quantity` over the cart rows `rows`, with each product's
      current price: the total of the order a snapshot creates. */
  function CartTotal(rows: seq<int>, cart: map<int, CartItem>, products: map<int, Product>): int
    requires RowsIn(rows, cart)
  {
    if rows == [] then 0
    else CartTotal(rows[..|rows| - 1], cart, products) + Subtotal(ItemFor(0, cart[rows[|rows| - 1]], products))
  }

  /** The product id the loop of orders.py:50-53 stops at: that of the first row
      whose product is missing or unavailable, or `None` when every row's is
      orderable. */
  function FirstUnorderable(rows: seq<int>, cart: map<int, CartItem>, products: map<int, Product>): Option<int>
    requires RowsIn(rows, cart)
  {
    if rows == [] then None
    else if !Orderable(products, cart[rows[0]].productId) then Some(cart[rows[0]].productId)
    else (assert RowsIn(rows[1..], cart); FirstUnorderable(rows[1..], cart, products))
  }

  /** `FirstUnorderable` finds nothing exactly when every row's product is
      orderable, and otherwise names the product of the earliest row that is not. */
  lemma {:induction false} FirstUnorderableSpec(rows: seq<int>, cart: map<int, CartItem>, products: map<int, Product>)
    requires RowsIn(rows, cart)
    ensures var r := FirstUnorderable(rows, cart, products);
      && (r.None? <==> forall i :: 0 <= i < |rows| ==> Orderable(products, cart[rows[i]].productId))
      && (r.Some? ==> exists i :: (0 <= i < |rows| && r.value == cart[rows[i]].productId &&
            !Orderable(products, r.value) &&
            forall j :: 0 <= j < i ==> Orderable(products, cart[rows[j]].productId)))
  {
    if rows != [] && Orderable(products, cart[rows[0]].productId) {
      var tail := rows[1..];
      assert RowsIn(tail, cart);
      FirstUnorderableSpec(tail, cart, products);
      var r := FirstUnorderable(tail, cart, products);
      forall i | 0 <= i < |tail|
        ensures tail[i] == rows[i + 1]
      {
      }
      if r.Some? {
        var i :| 0 <= i < |tail| && r.value == cart[tail[i]].productId &&
          !Orderable(products, r.value) &&
          forall j :: 0 <= j < i ==> Orderable(products, cart[tail[j]].productId);
        assert forall j :: 0 <= j < i + 1 ==> Orderable(products, cart[rows[j]].productId) by {
          forall j | 0 <= j < i + 1
            ensures Orderable(products, cart[rows[j]].productId)
          {
            if j > 0 {
              assert rows[j] == tail[j - 1];
            }
          }
        }
      } else {
        assert forall i :: 0 <= i < |rows| ==> Orderable(products, cart[rows[i]].productId) by {
          forall i | 0 <= i < |rows|
            ensures Orderable(products, cart[rows[i]].productId)
          {
            if i > 0 {
              assert rows[i] == tail[i - 1];
            }
          }
        }
      }
    }
  }

  /** A snapshot of a cart with positive quantities and non-negative prices costs
      nothing negative, as the CHECK on `total_price` (models.py:136) requires. */
  lemma {:induction false} CartTotalNonNegative(rows: seq<int>, cart: map<int, CartItem>, products: map<int, Product>)
    requires RowsIn(rows, cart)
    requires forall id :: id in cart ==> cart[id].quantity > 0
    requires ProductRowsOk(products)
    ensures CartTotal(rows, cart, products) >= 0
  {
    if rows != [] {
      var c := cart[rows[|rows| - 1]];
      assert RowsIn(rows[..|rows| - 1], cart);
      CartTotalNonNegative(rows[..|rows| - 1], cart, products);
      assert PriceOf(products, c.productId) >= 0;
      assert Subtotal(ItemFor(0, c, products)) >= 0;
    }
  }

  /** Adding the next row to a snapshot adds exactly one item, at the next id. */
  lemma SnapshotGrow(oid: int, first: int, rows: seq<int>, i: nat, cart: map<int, CartItem>,
                     products: map<int, Product>)
    requires RowsIn(rows, cart) && i < |rows|
    ensures RowsIn(rows[..i], cart) && RowsIn(rows[..i + 1], cart)
    ensures Snapshot(oid, first, rows[..i + 1], cart, products) ==
            Snapshot(oid, first, rows[..i], cart, products)[first + i := ItemFor(oid, cart[rows[i]], products)]
  {
    assert RowsIn(rows[..i], cart);
    assert RowsIn(rows[..i + 1], cart);
    assert rows[..i + 1][..i] == rows[..i];
  }

  /** The total a snapshot gives its (fresh) order is the cart's total: the items
      inserted for `oid` above `first` are the only ones it has. */
  lemma {:induction false} SnapshotTotal(items: map<int, OrderItem>, oid: int, first: nat, rows: seq<int>,
                                         cart: map<int, CartItem>, products: map<int, Product>)
    requires RowsIn(rows, cart)
    requires forall id :: id in items ==> id < first && items[id].orderId != oid
    ensures ItemsTotal(items + Snapshot(oid, first, rows, cart, products), oid, first + |rows|) ==
            CartTotal(rows, cart, products)
  {
    var all := items + Snapshot(oid, first, rows, cart, products);
    if rows == [] {
      assert forall id :: 0 <= id < first ==> LineAt(all, oid, id) == 0;
      ItemsTotalFrame(all, map[], oid, first);
      ItemsTotalBeyond(map[], oid, 0, first);
    } else {
      var n := |rows| - 1;
      var prefix := rows[..n];
      assert RowsIn(prefix, cart);
      var before := items + Snapshot(oid, first, prefix, cart, products);
      SnapshotTotal(items, oid, first, prefix, cart, products);
      assert forall id :: 0 <= id < first + n ==> LineAt(all, oid, id) == LineAt(before, oid, id);
      ItemsTotalFrame(all, before, oid, first + n);
      assert rows[n] == rows[|rows| - 1];
      assert all[first + n] == ItemFor(oid, cart[rows[n]], products);
    }
  }

  /** A snapshot for order `oid` leaves every other order's total as it was. */
  lemma SnapshotKeepsOtherTotals(items: map<int, OrderItem>, oid: int, first: nat, rows: seq<int>,
                                 cart: map<int, CartItem>, products: map<int, Product>, o: int)
    requires RowsIn(rows, cart) && o != oid
    requires forall id :: id in items ==> id < first
    ensures ItemsTotal(items + Snapshot(oid, first, rows, cart, products), o, first + |rows|) ==
            ItemsTotal(items, o, first)
  {
    var all := items + Snapshot(oid, first, rows, cart, products);
    SnapshotAt(oid, first, rows, cart, products);
    forall id | first <= id < first + |rows|
      ensures LineAt(all, o, id) == 0
    {
      assert all[id] == ItemFor(oid, cart[rows[id - first]], products);
    }
    ItemsTotalBeyond(all, o, first, first + |rows|);
    assert forall id :: 0 <= id < first ==> LineAt(all, o, id) == LineAt(items, o, id);
    ItemsTotalFrame(all, items, o, first);
  }

  /** Recording a snapshot as a new pending order of an existing user keeps every
      constraint of the schema. */
  lemma PlaceOrderKeepsConsistent(users: map<int, User>, products: map<int, Product>,
                                  cart: map<int, CartItem>, orders: map<int, Order>,
                                  items: map<int, OrderItem>, nu: nat, np: nat, nc: nat, no: nat, ni: nat,
                                  uid: int, rows: seq<int>)
    requires Consistent(users, products, cart, orders, items, nu, np, nc, no, ni)
    requires uid in users && RowsIn(rows, cart)
    ensures Consistent(users, products, cart,
                       orders[no := Order(uid, CartTotal(rows, cart, products), Pending)],
                       items + Snapshot(no, ni, rows, cart, products), nu, np, nc, no + 1, ni + |rows|)
  {
    var orders' := orders[no := Order(uid, CartTotal(rows, cart, products), Pending)];
    var items' := items + Snapshot(no, ni, rows, cart, products);
    assert no !in orders;
    SnapshotAt(no, ni, rows, cart, products);
    SnapshotTotal(items, no, ni, rows, cart, products);
    forall o | o in orders'
      ensures orders'[o].userId in users && orders'[o].totalPrice == ItemsTotal(items', o, ni + |rows|)
    {
      if o != no {
        SnapshotKeepsOtherTotals(items, no, ni, rows, cart, products, o);
      }
    }
    forall id | id in items'
      ensures items'[id].quantity > 0 && items'[id].price >= 0 && items'[id].orderId in orders'
    {
      if id !in items {
        assert ni <= id < ni + |rows|;
        assert rows[id - ni] in cart;
        var c := cart[rows[id - ni]];
        assert items'[id] == ItemFor(no, c, products);
        assert CartRowsOk(cart, users);
        assert forall k :: k in cart ==> cart[k].quantity > 0;
        assert c.quantity > 0;
        assert PriceOf(products, c.productId) >= 0;
      }
    }
  }

  /** Removing cart rows keeps every constraint of the schema. */
  lemma DropCartRowsKeepsConsistent(users: map<int, User>, products: map<int, Product>,
                                    cart: map<int, CartItem>, orders: map<int, Order>,
                                    items: map<int, OrderItem>, nu: nat, np: nat, nc: nat, no: nat, ni: nat,
                                    cart': map<int, CartItem>)
    requires Consistent(users, products, cart, orders, items, nu, np, nc, no, ni)
    requires forall id :: id in cart' ==> id in cart && cart'[id] == cart[id]
    ensures Consistent(users, products, cart', orders, items, nu, np, nc, no, ni)
  {
  }

  /** The item table after every item of order `oid` is marked paid: only those
      items' statuses change. */
  function PaidItems(items: map<int, OrderItem>, oid: int): (r: map<int, OrderItem>)
    ensures r.Keys == items.Keys
    ensures forall id :: id in r && r[id].orderId == oid ==> r[id].paymentStatus == Paid
    ensures forall id :: id in r ==> r[id].(paymentStatus := items[id].paymentStatus) == items[id]
    ensures forall id :: id in r && items[id].orderId != oid ==> r[id] == items[id]
  {
    map id | id in items :: if items[id].orderId == oid then items[id].(paymentStatus := Paid) else items[id]
  }

  /** The item table after order `oid` is deleted: the cascade of models.py:148
      removes exactly its items. */
  function WithoutItemsOf(items: map<int, OrderItem>, oid: int): (r: map<int, OrderItem>)
    ensures forall id :: id in r <==> id in items && items[id].orderId != oid
    ensures forall id :: id in r ==> r[id] == items[id]
  {
    map id | id in items && items[id].orderId != oid :: items[id]
  }

  /** Marking an order paid changes no order's total: a subtotal does not depend
      on the status. */
  lemma PayKeepsConsistent(users: map<int, User>, products: map<int, Product>,
                           cart: map<int, CartItem>, orders: map<int, Order>,
                           items: map<int, OrderItem>, nu: nat, np: nat, nc: nat, no: nat, ni: nat,
                           oid: int)
    requires Consistent(users, products, cart, orders, items, nu, np, nc, no, ni)
    requires oid in orders
    ensures Consistent(users, products, cart, orders[oid := orders[oid].(paymentStatus := Paid)],
                       PaidItems(items, oid), nu, np, nc, no, ni)
  {
    var items' := PaidItems(items, oid);
    forall o | o in orders
      ensures ItemsTotal(items', o, ni) == ItemsTotal(items, o, ni)
    {
      assert forall id :: 0 <= id < ni ==> LineAt(items', o, id) == LineAt(items, o, id);
      ItemsTotalFrame(items', items, o, ni);
    }
  }

  /** Deleting an order together with its items leaves every other order's total
      as it was. */
  lemma CancelKeepsConsistent(users: map<int, User>, products: map<int, Product>,
                              cart: map<int, CartItem>, orders: map<int, Order>,
                              items: map<int, OrderItem>, nu: nat, np: nat, nc: nat, no: nat, ni: nat,
                              oid: int)
    requires Consistent(users, products, cart, orders, items, nu, np, nc, no, ni)
    ensures Consistent(users, products, cart, orders - {oid}, WithoutItemsOf(items, oid), nu, np, nc, no, ni)
  {
    var items' := WithoutItemsOf(items, oid);
    forall o | o in orders - {oid}
      ensures ItemsTotal(items', o, ni) == ItemsTotal(items, o, ni)
    {
      assert forall id :: 0 <= id < ni ==> LineAt(items', o, id) == LineAt(items, o, id);
      ItemsTotalFrame(items', items, o, ni);
    }
  }

  // ---------------------------------------------------------------------------
  // The handlers

  /** `list_orders`: exactly the caller's orders, ascending by id. */
  function ListOrders(s: Store, uid: int): (r: Result<seq<(int, Order)>>)
    reads s
    requires IdsBelow(s.orders, s.nextOrderId)
    ensures r.Err? <==> uid !in s.users
    ensures r.Err? ==> r.error == UserNotFound
    ensures r.Ok? ==> forall i :: 0 <= i < |r.value| ==>
      r.value[i].0 in s.orders && r.value[i].1 == s.orders[r.value[i].0] && r.value[i].1.userId == uid
    ensures r.Ok? ==> forall id :: id in s.orders && s.orders[id].userId == uid ==>
      exists i :: 0 <= i < |r.value| && r.value[i].0 == id
    ensures r.Ok? ==> forall i, j :: 0 <= i < j < |r.value| ==> r.value[i].0 < r.value[j].0
  {
    if uid !in s.users then Err(UserNotFound)
    else
      var ids := OrdersOf(s.orders, uid, s.nextOrderId);
      OrdersOfSpec(s.orders, uid, s.nextOrderId);
      var rows := RowsAt(s.orders, ids);
      assert forall id | id in ids :: exists i :: 0 <= i < |rows| && rows[i].0 == id by {
        forall id | id in ids
          ensures exists i :: 0 <= i < |rows| && rows[i].0 == id
        {
          RowsAtCovers(s.orders, ids, id);
        }
      }
      Ok(rows)
  }

  /** The lookup `get_order`, `mark_order_paid` and `cancel_order` start with:
      the caller must exist, and order `oid` must exist and be the caller's. */
  function GetOrder(s: Store, uid: int, oid: int): (r: Result<Order>)
    reads s
    ensures r.Ok? <==> uid in s.users && oid in s.orders && s.orders[oid].userId == uid
    ensures r.Ok? ==> r.value == s.orders[oid]
    ensures uid !in s.users ==> r == Err(UserNotFound)
    ensures uid in s.users && r.Err? ==> r == Err(NotFound)
  {
    if uid !in s.users then Err(UserNotFound)
    else if oid !in s.orders || s.orders[oid].userId != uid then Err(NotFound)
    else Ok(s.orders[oid])
  }

  /** With every row before the i-th orderable and the i-th not, the i-th is
      where the loop of orders.py:50-53 stops. */
  lemma {:induction false} FirstUnorderableAt(rows: seq<int>, cart: map<int, CartItem>,
                                              products: map<int, Product>, i: nat)
    requires RowsIn(rows, cart) && i < |rows|
    requires forall j :: 0 <= j < i ==> Orderable(products, cart[rows[j]].productId)
    requires !Orderable(products, cart[rows[i]].productId)
    ensures FirstUnorderable(rows, cart, products) == Some(cart[rows[i]].productId)
  {
    if i > 0 {
      assert Orderable(products, cart[rows[0]].productId);
      assert RowsIn(rows[1..], cart);
      assert rows[1..][i - 1] == rows[i];
      forall j | 0 <= j < i - 1
        ensures Orderable(products, cart[rows[1..][j]].productId)
      {
        assert rows[1..][j] == rows[j + 1];
      }
      FirstUnorderableAt(rows[1..], cart, products, i - 1);
    }
  }

  /** The loop of orders.py:50-62: one order item per cart row of `rows`, in
      order, under consecutive ids from `first`, stopping at the first row whose
      product is missing or unavailable (its product id is returned). The items
      are staged in the session, here a local map, and reach the store only when
      the caller commits. */
  method StageItems(oid: int, first: int, rows: seq<int>, cart: map<int, CartItem>, products: map<int, Product>)
    returns (bad: Option<int>, staged: map<int, OrderItem>)
    requires RowsIn(rows, cart)
    ensures bad == FirstUnorderable(rows, cart, products)
    ensures bad.None? ==> staged == Snapshot(oid, first, rows, cart, products)
  {
    staged := map[];
    var i := 0;
    while i < |rows|
      invariant 0 <= i <= |rows| && RowsIn(rows[..i], cart)
      invariant staged == Snapshot(oid, first, rows[..i], cart, products)
      invariant forall j :: 0 <= j < i ==> Orderable(products, cart[rows[j]].productId)
    {
      var ci := cart[rows[i]];
      if !Orderable(products, ci.productId) {
        FirstUnorderableAt(rows, cart, products, i);
        return Some(ci.productId), staged;
      }
      SnapshotGrow(oid, first, rows, i, cart, products);
      staged := staged[first + i := ItemFor(oid, ci, products)];
      i := i + 1;
    }
    assert rows[..i] == rows;
    FirstUnorderableSpec(rows, cart, products);
    bad := None;
  }

  /** A successful commit keeps every constraint: the tables after it are the
      new order `no`, whose total `calculate_Total` set from its snapshot items,
      and those items; that total is the cart's total. */
  lemma CommitKeepsConsistent(users: map<int, User>, products: map<int, Product>,
                              cart: map<int, CartItem>, orders: map<int, Order>,
                              items: map<int, OrderItem>, nu: nat, np: nat, nc: nat, no: nat, ni: nat,
                              uid: int, rows: seq<int>, orders': map<int, Order>, items': map<int, OrderItem>)
    requires Consistent(users, products, cart, orders, items, nu, np, nc, no, ni)
    requires uid in users && RowsIn(rows, cart)
    requires items' == items + Snapshot(no, ni, rows, cart, products)
    requires orders' == orders[no := Order(uid, ItemsTotal(items', no, ni + |rows|), Pending)]
    ensures ItemsTotal(items', no, ni + |rows|) == CartTotal(rows, cart, products)
    ensures Consistent(users, products, cart, orders', items', nu, np, nc, no + 1, ni + |rows|)
  {
    assert forall id :: id in items ==> id < ni && items[id].orderId != no;
    SnapshotTotal(items, no, ni, rows, cart, products);
    PlaceOrderKeepsConsistent(users, products, cart, orders, items, nu, np, nc, no, ni, uid, rows);
  }

  /** The commit of a successful `create_order_from_cart`, before the cart is
      cleared: the pending order `oid` (orders.py:43-47), its staged items, and
      its total from `calculate_Total` (orders.py:65). */
  method CommitOrder(s: Store, uid: int, rows: seq<int>, staged: map<int, OrderItem>) returns (oid: int)
    requires s.Valid() && uid in s.users && RowsIn(rows, s.cartItems)
    requires staged == Snapshot(s.nextOrderId, s.nextOrderItemId, rows, s.cartItems, s.products)
    modifies s`orders, s`orderItems, s`nextOrderId, s`nextOrderItemId
    ensures s.Valid()
    ensures oid == old(s.nextOrderId)
    ensures s.orders == old(s.orders)[oid := Order(uid, CartTotal(rows, s.cartItems, s.products), Pending)]
    ensures s.orderItems == old(s.orderItems) + staged
    ensures s.nextOrderId == oid + 1 && s.nextOrderItemId == old(s.nextOrderItemId) + |rows|
  {
    oid := s.nextOrderId;
    var first := s.nextOrderItemId;
    ghost var users, products, cart, orders0, items0 := s.users, s.products, s.cartItems, s.orders, s.orderItems;
    ghost var nu, np, nc := s.nextUserId, s.nextProductId, s.nextCartItemId;
    s.orders := s.orders[oid := Order(uid, 0, Pending)];
    s.nextOrderId := oid + 1;
    s.orderItems := s.orderItems + staged;
    s.nextOrderItemId := first + |rows|;
    var total := s.CalculateTotal(oid);
    assert s.orders == orders0[oid := Order(uid, total, Pending)];
    CommitKeepsConsistent(users, products, cart, orders0, items0, nu, np, nc, oid, first, uid, rows,
                          s.orders, s.orderItems);
  }

  /** The bulk delete of orders.py:69: every cart row of `uid`, and only those. */
  method ClearCart(s: Store, uid: int)
    requires s.Valid()
    modifies s`cartItems
    ensures s.Valid()
    ensures s.cartItems == WithoutCartOf(old(s.cartItems), uid)
  {
    DropCartRowsKeepsConsistent(s.users, s.products, s.cartItems, s.orders, s.orderItems, s.nextUserId,
                                s.nextProductId, s.nextCartItemId, s.nextOrderId, s.nextOrderItemId,
                                WithoutCartOf(s.cartItems, uid));
    s.cartItems := WithoutCartOf(s.cartItems, uid);
  }

  /** The rest of `create_order_from_cart` once the caller's rows `rows` are
      known: a pending order with one item per row, its total computed, then the
      caller's cart cleared; or, at the first row whose product is missing or
      unavailable, an error with nothing changed, since the early return leaves
      the session uncommitted. */
  method PlaceOrder(s: Store, uid: int, rows: seq<int>) returns (r: Result<int>)
    requires s.Valid() && uid in s.users && RowsIn(rows, s.cartItems)
    modifies s`orders, s`orderItems, s`cartItems, s`nextOrderId, s`nextOrderItemId
    ensures s.Valid()
    ensures FirstUnorderable(rows, old(s.cartItems), s.products).Some? ==>
      && r == Err(ProductUnavailable(FirstUnorderable(rows, old(s.cartItems), s.products).value))
      && s.orders == old(s.orders) && s.orderItems == old(s.orderItems) && s.cartItems == old(s.cartItems)
      && s.nextOrderId == old(s.nextOrderId) && s.nextOrderItemId == old(s.nextOrderItemId)
    ensures FirstUnorderable(rows, old(s.cartItems), s.products).None? ==>
      && r == Ok(old(s.nextOrderId))
      && s.orders == old(s.orders)[r.value := Order(uid, CartTotal(rows, old(s.cartItems), s.products), Pending)]
      && s.orderItems == old(s.orderItems) + Snapshot(r.value, old(s.nextOrderItemId), rows, old(s.cartItems), s.products)
      && s.nextOrderId == old(s.nextOrderId) + 1 && s.nextOrderItemId == old(s.nextOrderItemId) + |rows|
      && s.cartItems == WithoutCartOf(old(s.cartItems), uid)
  {
    var bad, staged := StageItems(s.nextOrderId, s.nextOrderItemId, rows, s.cartItems, s.products);
    if bad.Some? {
      return Err(ProductUnavailable(bad.value));
    }
    var oid := CommitOrder(s, uid, rows, staged);
    ClearCart(s, uid);
    r := Ok(oid);
  }

  /** `create_order_from_cart`: the caller's cart rows, in id order, become the
      items of one new pending order whose total is the cart's total, and the
      caller's cart is emptied. A missing user, an empty cart, or a row whose
      product is missing or unavailable (the first such, by row id) is rejected
      and nothing changes: the early return leaves the session uncommitted. */
  method CreateOrderFromCart(s: Store, uid: int) returns (r: Result<int>)
    requires s.Valid()
    modifies s`orders, s`orderItems, s`cartItems, s`nextOrderId, s`nextOrderItemId
    ensures s.Valid()
    ensures r.Err? ==>
      && s.orders == old(s.orders) && s.orderItems == old(s.orderItems) && s.cartItems == old(s.cartItems)
      && s.nextOrderId == old(s.nextOrderId) && s.nextOrderItemId == old(s.nextOrderItemId)
    ensures uid !in s.users ==> r == Err(UserNotFound)
    ensures uid in s.users && old(s.CartOf(uid)) == [] ==> r == Err(EmptyCart)
    ensures uid in s.users && old(s.CartOf(uid)) != [] ==>
      var bad := FirstUnorderable(old(s.CartOf(uid)), old(s.cartItems), s.products);
      bad.Some? ==> r == Err(ProductUnavailable(bad.value))
    ensures (uid in s.users && old(s.CartOf(uid)) != [] &&
             FirstUnorderable(old(s.CartOf(uid)), old(s.cartItems), s.products).None?) ==> r.Ok?
    ensures r.Ok? ==>
      var rows := old(s.CartOf(uid));
      && uid in s.users && rows != [] && FirstUnorderable(rows, old(s.cartItems), s.products).None?
      && r.value == old(s.nextOrderId)
      && s.orders == old(s.orders)[r.value := Order(uid, CartTotal(rows, old(s.cartItems), s.products), Pending)]
      && s.orderItems == old(s.orderItems) + Snapshot(r.value, old(s.nextOrderItemId), rows, old(s.cartItems), s.products)
      && s.nextOrderId == old(s.nextOrderId) + 1 && s.nextOrderItemId == old(s.nextOrderItemId) + |rows|
      && s.cartItems == WithoutCartOf(old(s.cartItems), uid)
  {
    if uid !in s.users {
      return Err(UserNotFound);
    }
    var rows := s.CartOf(uid);
    if rows == [] {
      return Err(EmptyCart);
    }
    r := PlaceOrder(s, uid, rows);
  }

  /** The item table after the items at `ids` are marked paid. */
  ghost function PaidAmong(items: map<int, OrderItem>, ids: seq<int>): map<int, OrderItem>
  {
    map id | id in items :: if id in ids then items[id].(paymentStatus := Paid) else items[id]
  }

  /** Marking the items `ItemsOf` finds is marking the items of the order. */
  lemma PaidAmongItemsOf(items: map<int, OrderItem>, oid: int, n: nat)
    requires IdsBelow(items, n)
    ensures PaidAmong(items, ItemsOf(items, oid, n)) == PaidItems(items, oid)
  {
    ItemsOfSpec(items, oid, n);
    var ids := ItemsOf(items, oid, n);
    assert forall id | id in items :: id in ids <==> items[id].orderId == oid;
  }

  /** Marking one more item paid extends the marked list by that item. */
  lemma PaidAmongStep(items: map<int, OrderItem>, done: seq<int>, id: int)
    requires id in items
    ensures PaidAmong(items, done)[id := PaidAmong(items, done)[id].(paymentStatus := Paid)] ==
            PaidAmong(items, done + [id])
  {
  }

  /** The loop of orders.py:114-115: every item of `oid` gets status `paid`. */
  method MarkItemsPaid(s: Store, oid: int)
    requires IdsBelow(s.orderItems, s.nextOrderItemId)
    modifies s`orderItems
    ensures s.orderItems == PaidItems(old(s.orderItems), oid)
  {
    ghost var items0 := s.orderItems;
    var ids := ItemsOf(s.orderItems, oid, s.nextOrderItemId);
    ItemsOfSpec(s.orderItems, oid, s.nextOrderItemId);
    var i := 0;
    while i < |ids|
      invariant 0 <= i <= |ids|
      invariant s.orderItems == PaidAmong(items0, ids[..i])
    {
      var id := ids[i];
      assert ids[..i + 1] == ids[..i] + [id];
      PaidAmongStep(items0, ids[..i], id);
      s.orderItems := s.orderItems[id := s.orderItems[id].(paymentStatus := Paid)];
      i := i + 1;
    }
    assert ids[..i] == ids;
    PaidAmongItemsOf(items0, oid, s.nextOrderItemId);
  }

  /** `mark_order_paid`: the order and every one of its items become `paid`,
      whatever their status was; nothing else changes. A failed lookup changes
      nothing. */
  method MarkOrderPaid(s: Store, uid: int, oid: int) returns (r: Result<Order>)
    requires s.Valid()
    modifies s`orders, s`orderItems
    ensures s.Valid()
    ensures old(GetOrder(s, uid, oid)).Err? ==>
      r == old(GetOrder(s, uid, oid)) && s.orders == old(s.orders) && s.orderItems == old(s.orderItems)
    ensures old(GetOrder(s, uid, oid)).Ok? ==>
      && s.orders == old(s.orders)[oid := old(s.orders)[oid].(paymentStatus := Paid)]
      && s.orderItems == PaidItems(old(s.orderItems), oid)
      && r == Ok(s.orders[oid])
  {
    var found := GetOrder(s, uid, oid);
    if found.Err? {
      return found;
    }
    ghost var orders0, items0 := s.orders, s.orderItems;
    s.orders := s.orders[oid := s.orders[oid].(paymentStatus := Paid)];
    MarkItemsPaid(s, oid);
    PayKeepsConsistent(s.users, s.products, s.cartItems, orders0, items0, s.nextUserId,
                       s.nextProductId, s.nextCartItemId, s.nextOrderId, s.nextOrderItemId, oid);
    r := Ok(s.orders[oid]);
  }

  /** `cancel_order`: only a pending order may be cancelled; it is deleted with
      its items (the cascade of models.py:148). */
  method CancelOrder(s: Store, uid: int, oid: int) returns (r: Result<()>)
    requires s.Valid()
    modifies s`orders, s`orderItems
    ensures s.Valid()
    ensures r.Err? ==> s.orders == old(s.orders) && s.orderItems == old(s.orderItems)
    ensures old(GetOrder(s, uid, oid)).Err? ==> r == Err(old(GetOrder(s, uid, oid)).error)
    ensures old(GetOrder(s, uid, oid)).Ok? && old(s.orders)[oid].paymentStatus != Pending ==> r == Err(NotPending)
    ensures old(GetOrder(s, uid, oid)).Ok? && old(s.orders)[oid].paymentStatus == Pending ==> r.Ok?
    ensures r.Ok? ==>
      && old(GetOrder(s, uid, oid)).Ok? && old(s.orders)[oid].paymentStatus == Pending
      && s.orders == old(s.orders) - {oid}
      && s.orderItems == WithoutItemsOf(old(s.orderItems), oid)
  {
    var found := GetOrder(s, uid, oid);
    if found.Err? {
      return Err(found.error);
    }
    if found.value.paymentStatus != Pending {
      return Err(NotPending);
    }
    CancelKeepsConsistent(s.users, s.products, s.cartItems, s.orders, s.orderItems, s.nextUserId,
                          s.nextProductId, s.nextCartItemId, s.nextOrderId, s.nextOrderItemId, oid);
    s.orders := s.orders - {oid};
    s.orderItems := WithoutItemsOf(s.orderItems, oid);
    r := Ok(());
  }
}
