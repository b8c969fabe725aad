/** The checkout of payment.py: the caller's cart becomes a pending order and
    its items, both committed before the payment provider is asked for a
    checkout session; the cart is cleared only once the provider has answered
    with a session. The provider's answer is an input of the model. */
module Payment {
  import opened Models
  import opened Orders
  import opened Floats

  /** One line of the provider request (payment.py:42-53). */
  datatype LineItem = LineItem(currency: string, unitAmount: int, name: string, images: seq<string>,
                               quantity: int)

  /** What the provider does with the request: a checkout session at `url`, or
      an exception carrying `message`. */
  datatype ProviderOutcome = SessionCreated(url: string) | ProviderFailed(message: string)

  /** The success answer: where to send the caller, and the order it pays. */
  datatype Checkout = Checkout(checkoutUrl: string, orderId: int)

  /** Every row of `rows` is a cart row whose product exists: the loop of
      payment.py:35-53 reads `item.product` with no check. */
  ghost predicate ProductsExist(rows: seq<int>, cart: map<int, CartItem>, products: map<int, Product>)
  {
    forall i :: 0 <= i < |rows| ==> rows[i] in cart && cart[rows[i]].productId in products
  }

  /** The line for cart row `c`: Canadian dollars, the unit price in cents, the
      product's name, its image when it has a non-empty one, and the row's
      quantity. */
  function LineFor(c: CartItem, products: map<int, Product>): LineItem
    requires c.productId in products
  {
    var p := products[c.productId];
    LineItem("cad", p.price, p.name,
             if p.imageUrl.Some? && p.imageUrl.value != "" then [p.imageUrl.value] else [], c.quantity)
  }

  /** The request's lines: one per row of `rows`, in order. */
  function LineItems(rows: seq<int>, cart: map<int, CartItem>, products: map<int, Product>): seq<LineItem>
    requires ProductsExist(rows, cart, products)
  {
    if rows == [] then []
    else
      var n := |rows| - 1;
      assert ProductsExist(rows[..n], cart, products);
      LineItems(rows[..n], cart, products) + [LineFor(cart[rows[n]], products)]
  }

  /** What the provider charges for `lines`: each unit amount times its quantity. */
  function Charged(lines: seq<LineItem>): int
  {
    if lines == [] then 0
    else Charged(lines[..|lines| - 1]) + lines[|lines| - 1].unitAmount * lines[|lines| - 1].quantity
  }

  /** The i-th line is made from the i-th row. */
  lemma {:induction false} LineItemsAt(rows: seq<int>, cart: map<int, CartItem>, products: map<int, Product>)
    requires ProductsExist(rows, cart, products)
    ensures |LineItems(rows, cart, products)| == |rows|
    ensures forall i :: 0 <= i < |rows| ==> LineItems(rows, cart, products)[i] == LineFor(cart[rows[i]], products)
  {
    if rows != [] {
      var n := |rows| - 1;
      assert ProductsExist(rows[..n], cart, products);
      LineItemsAt(rows[..n], cart, products);
      forall i | 0 <= i < n
        ensures rows[..n][i] == rows[i]
      {
      }
    }
  }

  /** The provider is asked to charge exactly the order's total: the sum of the
      lines is the cart's total. */
  lemma {:induction false} ChargedIsCartTotal(rows: seq<int>, cart: map<int, CartItem>, products: map<int, Product>)
    requires ProductsExist(rows, cart, products)
    ensures RowsIn(rows, cart)
    ensures Charged(LineItems(rows, cart, products)) == CartTotal(rows, cart, products)
  {
    if rows != [] {
      var n := |rows| - 1;
      assert ProductsExist(rows[..n], cart, products);
      ChargedIsCartTotal(rows[..n], cart, products);
      var lines := LineItems(rows, cart, products);
      assert lines[..|lines| - 1] == LineItems(rows[..n], cart, products);
    }
  }

  /** The unit amount payment.py:46 actually computes, `int(float(product.price) * 100)`:
      the price (here in cents) becomes the double nearest to it in dollars, is
      multiplied by 100 in double arithmetic, and the product is truncated. */
  function UnitAmountAsWritten(cents: nat): nat
  {
    if cents == 0 then 0
    else
      var dollars := RoundDouble(cents, 100);
      if dollars.0 == 0 then 0 else Truncate(RoundDouble(100 * dollars.0, dollars.1))
  }

  /** The line payment.py:42-53 actually builds for cart row `c`. */
  function LineAsWritten(c: CartItem, products: map<int, Product>): LineItem
    requires c.productId in products && products[c.productId].price >= 0
  {
    LineFor(c, products).(unitAmount := UnitAmountAsWritten(products[c.productId].price))
  }

  /** A price of 19.99 is sent as 1998 cents. */
  lemma UnitAmountOf1999Cents()
    ensures UnitAmountAsWritten(1999) == 1998
  {
    DoubleOf1999Cents();
    HundredTimesDoubleOf1999Cents();
  }

  /** The truncation loses a cent: for a cart of `q` units of a product priced
      19.99, the request as written asks for 19.98 per unit, while the order it
      records totals 19.99 per unit. */
  lemma {:induction false} ChargedAsWrittenFallsShort(id: int, c: CartItem, products: map<int, Product>)
    requires c.productId in products && products[c.productId].price == 1999 && c.quantity > 0
    ensures Charged([LineAsWritten(c, products)]) == 1998 * c.quantity
    ensures CartTotal([id], map[id := c], products) == 1999 * c.quantity
    ensures Charged([LineAsWritten(c, products)]) < CartTotal([id], map[id := c], products)
  {
    var line := LineAsWritten(c, products);
    assert line.unitAmount == 1998 by {
      UnitAmountOf1999Cents();
    }
    assert [line][..0] == [];
    assert Charged([line]) == 1998 * c.quantity;
    assert [id][..0] == [];
    var item := ItemFor(0, c, products);
    assert item.price == 1999 && item.quantity == c.quantity;
    assert Subtotal(item) == c.quantity * 1999;
    assert CartTotal([id], map[id := c], products) == Subtotal(item);
  }

  /** The accumulator loop of payment.py:35-53: the request's lines and the
      running total of `price * quantity`. */
  method BuildLineItems(rows: seq<int>, cart: map<int, CartItem>, products: map<int, Product>)
    returns (lines: seq<LineItem>, total: int)
    requires ProductsExist(rows, cart, products)
    ensures RowsIn(rows, cart)
    ensures lines == LineItems(rows, cart, products)
    ensures total == CartTotal(rows, cart, products)
  {
    lines, total := [], 0;
    var i := 0;
    while i < |rows|
      invariant 0 <= i <= |rows| && ProductsExist(rows[..i], cart, products) && RowsIn(rows[..i], cart)
      invariant lines == LineItems(rows[..i], cart, products)
      invariant total == CartTotal(rows[..i], cart, products)
    {
      var c := cart[rows[i]];
      assert rows[..i + 1][..i] == rows[..i];
      assert ProductsExist(rows[..i + 1], cart, products) && RowsIn(rows[..i + 1], cart);
      total := total + products[c.productId].price * c.quantity;
      lines := lines + [LineFor(c, products)];
      i := i + 1;
    }
    assert rows[..i] == rows;
  }

  /** The loop of payment.py:65-72: one order item per row, with no
      availability check. */
  method SnapshotItems(oid: int, first: int, rows: seq<int>, cart: map<int, CartItem>, products: map<int, Product>)
    returns (staged: map<int, OrderItem>)
    requires RowsIn(rows, cart)
    ensures staged == Snapshot(oid, first, rows, cart, products)
  {
    staged := map[];
    var i := 0;
    while i < |rows|
      invariant 0 <= i <= |rows|
      invariant staged == Snapshot(oid, first, rows[..i], cart, products)
    {
      SnapshotGrow(oid, first, rows, i, cart, products);
      staged := staged[first + i := ItemFor(oid, cart[rows[i]], products)];
      i := i + 1;
    }
    assert rows[..i] == rows;
  }

  /** Committing the order with the accumulated total and its snapshot items
      keeps every constraint: that total is the one `calculate_Total` would give. */
  lemma CheckoutKeepsConsistent(users: map<int, User>, products: map<int, Product>,
                                cart: map<int, CartItem>, orders: map<int, Order>,
                                items: map<int, OrderItem>, nu: nat, np: nat, nc: nat, no: nat, ni: nat,
                                uid: int, rows: seq<int>, total: int,
                                orders': map<int, Order>, items': map<int, OrderItem>)
    requires Consistent(users, products, cart, orders, items, nu, np, nc, no, ni)
    requires uid in users && RowsIn(rows, cart) && total == CartTotal(rows, cart, products)
    requires orders' == orders[no := Order(uid, total, Pending)]
    requires items' == items + Snapshot(no, ni, rows, cart, products)
    ensures Consistent(users, products, cart, orders', items', nu, np, nc, no + 1, ni + |rows|)
  {
    PlaceOrderKeepsConsistent(users, products, cart, orders, items, nu, np, nc, no, ni, uid, rows);
  }

  /** The two commits of payment.py:56-74: the pending order with total `total`,
      then its items. */
  method CommitCheckoutOrder(s: Store, uid: int, rows: seq<int>, total: int) returns (oid: int)
    requires s.Valid() && uid in s.users && RowsIn(rows, s.cartItems)
    requires total == CartTotal(rows, s.cartItems, s.products)
    modifies s`orders, s`orderItems, s`nextOrderId, s`nextOrderItemId
    ensures s.Valid()
    ensures oid == old(s.nextOrderId)
    ensures s.orders == old(s.orders)[oid := Order(uid, total, Pending)]
    ensures s.orderItems == old(s.orderItems) + Snapshot(oid, old(s.nextOrderItemId), rows, s.cartItems, s.products)
    ensures s.nextOrderId == oid + 1 && s.nextOrderItemId == old(s.nextOrderItemId) + |rows|
  {
    oid := s.nextOrderId;
    var first := s.nextOrderItemId;
    ghost var users, products, cart, orders0, items0 := s.users, s.products, s.cartItems, s.orders, s.orderItems;
    ghost var nu, np, nc := s.nextUserId, s.nextProductId, s.nextCartItemId;
    s.orders := s.orders[oid := Order(uid, total, Pending)];
    s.nextOrderId := oid + 1;
    var staged := SnapshotItems(oid, first, rows, s.cartItems, s.products);
    s.orderItems := s.orderItems + staged;
    s.nextOrderItemId := first + |rows|;
    CheckoutKeepsConsistent(users, products, cart, orders0, items0, nu, np, nc, oid, first, uid, rows, total,
                            s.orders, s.orderItems);
  }

  /** The cart without the rows `rows`. */
  function WithoutRows(cart: map<int, CartItem>, rows: seq<int>): map<int, CartItem>
  {
    map id | id in cart && id !in rows :: cart[id]
  }

  /** Deleting exactly the rows read for the caller leaves what the bulk delete of
      the caller's cart leaves: the two cart-clearing paths agree. */
  lemma WithoutCallerRows(cart: map<int, CartItem>, uid: int, n: nat)
    requires IdsBelow(cart, n)
    ensures WithoutRows(cart, CartRowsOf(cart, uid, n)) == WithoutCartOf(cart, uid)
  {
    CartRowsOfSpec(cart, uid, n);
    var rows := CartRowsOf(cart, uid, n);
    assert forall id :: id in cart ==> (id in rows <==> cart[id].userId == uid);
  }

  /** When every cart row of `uid` points at an existing product, so does every
      row the caller's cart query returns. */
  lemma CallerRowsExist(cart: map<int, CartItem>, products: map<int, Product>, uid: int, n: nat)
    requires forall id :: id in cart && cart[id].userId == uid ==> cart[id].productId in products
    ensures ProductsExist(CartRowsOf(cart, uid, n), cart, products)
  {
    CartRowsOfSpec(cart, uid, n);
  }

  /** The loop of payment.py:95-97: each row of `rows` is deleted, and only those. */
  method DeleteRows(s: Store, rows: seq<int>)
    requires s.Valid()
    modifies s`cartItems
    ensures s.Valid()
    ensures s.cartItems == WithoutRows(old(s.cartItems), rows)
  {
    ghost var cart0 := s.cartItems;
    DropCartRowsKeepsConsistent(s.users, s.products, s.cartItems, s.orders, s.orderItems, s.nextUserId,
                                s.nextProductId, s.nextCartItemId, s.nextOrderId, s.nextOrderItemId,
                                WithoutRows(s.cartItems, rows));
    var i := 0;
    while i < |rows|
      invariant 0 <= i <= |rows|
      invariant s.cartItems == WithoutRows(cart0, rows[..i])
    {
      assert rows[..i + 1] == rows[..i] + [rows[i]];
      s.cartItems := s.cartItems - {rows[i]};
      i := i + 1;
    }
    assert rows[..i] == rows;
  }

  /** `create_checkout_session`. A missing user or an empty cart is rejected
      before anything is written or sent. Otherwise the request's lines are
      built, the pending order and its items are committed, and only then is
      the provider asked (`sent` is the request it receives). If the provider
      fails, the answer is a "Stripe error: " message while the order stays and
      the cart is untouched; if it succeeds, exactly the cart rows read at the
      start are deleted and the answer carries the session's URL and the order. */
  method CreateCheckoutSession(s: Store, uid: int, provider: ProviderOutcome)
    returns (r: Result<Checkout>, sent: Option<seq<LineItem>>)
    requires s.Valid()
    requires forall id :: id in s.cartItems && s.cartItems[id].userId == uid ==> s.cartItems[id].productId in s.products
    modifies s`orders, s`orderItems, s`cartItems, s`nextOrderId, s`nextOrderItemId
    ensures s.Valid()
    ensures r.Err? && sent.None? ==>
      && s.orders == old(s.orders) && s.orderItems == old(s.orderItems) && s.cartItems == old(s.cartItems)
      && s.nextOrderId == old(s.nextOrderId) && s.nextOrderItemId == old(s.nextOrderItemId)
    ensures uid !in s.users ==> r == Err(UserNotFound) && sent == None
    ensures uid in s.users && old(s.CartOf(uid)) == [] ==> r == Err(EmptyCart) && sent == None
    ensures uid in s.users && old(s.CartOf(uid)) != [] ==>
      var rows := old(s.CartOf(uid));
      && ProductsExist(rows, old(s.cartItems), s.products)
      && sent == Some(LineItems(rows, old(s.cartItems), s.products))
      && s.orders == old(s.orders)[old(s.nextOrderId) := Order(uid, CartTotal(rows, old(s.cartItems), s.products), Pending)]
      && s.orderItems == old(s.orderItems) + Snapshot(old(s.nextOrderId), old(s.nextOrderItemId), rows, old(s.cartItems), s.products)
      && s.nextOrderId == old(s.nextOrderId) + 1 && s.nextOrderItemId == old(s.nextOrderItemId) + |rows|
      && (provider.ProviderFailed? ==>
            r == Err(ProviderError("Stripe error: " + provider.message)) && s.cartItems == old(s.cartItems))
      && (provider.SessionCreated? ==>
            r == Ok(Checkout(provider.url, old(s.nextOrderId))) && s.cartItems == WithoutRows(old(s.cartItems), rows))
    ensures r.Ok? ==>
      GetOrder(s, uid, r.value.orderId) == Ok(Order(uid, CartTotal(old(s.CartOf(uid)), old(s.cartItems), s.products), Pending))
  {
    sent := None;
    if uid !in s.users {
      return Err(UserNotFound), sent;
    }
    var rows := s.CartOf(uid);
    if rows == [] {
      return Err(EmptyCart), sent;
    }
    CallerRowsExist(s.cartItems, s.products, uid, s.nextCartItemId);
    var lines, total := BuildLineItems(rows, s.cartItems, s.products);
    var oid := CommitCheckoutOrder(s, uid, rows, total);
    sent := Some(lines);
    match provider {
      case ProviderFailed(message) =>
        return Err(ProviderError("Stripe error: " + message)), sent;
      case SessionCreated(url) =>
        DeleteRows(s, rows);
        r := Ok(Checkout(url, oid));
    }
  }
}
