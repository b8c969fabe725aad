/** The cart engine of carts.py. Every handler acts for the caller `uid` (the
    user the bearer token names) and only on the caller's own rows. */
module Carts {
  import opened Models

  /** `list_cart`: exactly the caller's cart rows, ascending by id. */
  function ListCart(s: Store, uid: int): (r: Result<seq<(int, CartItem)>>)
    reads s
    requires IdsBelow(s.cartItems, s.nextCartItemId)
    ensures r.Err? <==> uid !in s.users
    ensures r.Err? ==> r.error == UserNotFound
    ensures r.Ok? ==> forall i :: 0 <= i < |r.value| ==>
      r.value[i].0 in s.cartItems && r.value[i].1 == s.cartItems[r.value[i].0] && r.value[i].1.userId == uid
    ensures r.Ok? ==> forall id :: id in s.cartItems && s.cartItems[id].userId == uid ==>
      exists i :: 0 <= i < |r.value| && r.value[i].0 == id
    ensures r.Ok? ==> forall i, j :: 0 <= i < j < |r.value| ==> r.value[i].0 < r.value[j].0
  {
    if uid !in s.users then Err(UserNotFound)
    else
      var ids := s.CartOf(uid);
      CartRowsOfSpec(s.cartItems, uid, s.nextCartItemId);
      var rows := RowsAt(s.cartItems, ids);
      assert forall id | id in ids :: exists i :: 0 <= i < |rows| && rows[i].0 == id by {
        forall id | id in ids
          ensures exists i :: 0 <= i < |rows| && rows[i].0 == id
        {
          RowsAtCovers(s.cartItems, ids, id);
        }
      }
      Ok(rows)
  }

  /** The quantity `add_to_cart` adds: 1 when the field is absent, otherwise the
      field converted to an integer, which must be positive. */
  function AddQuantity(q: IntField): (r: Result<int>)
    ensures r.Ok? <==> q.Absent? || (q.Parses? && q.n > 0)
    ensures r.Ok? ==> r.value > 0 && r.value == (if q.Parses? then q.n else 1)
    ensures q.NotInt? ==> r == Err(NotAnInteger)
    ensures q.Parses? && q.n <= 0 ==> r == Err(NonPositiveQuantity)
  {
    match q
    case Absent => Ok(1)
    case NotInt => Err(NotAnInteger)
    case Parses(n) => if n <= 0 then Err(NonPositiveQuantity) else Ok(n)
  }

  /** The quantity `update_cart` sets: the field is required, must convert to an
      integer, and must be positive. */
  function UpdateQuantity(q: IntField): (r: Result<int>)
    ensures r.Ok? <==> q.Parses? && q.n > 0
    ensures r.Ok? ==> r.value == q.n
    ensures q.Absent? ==> r == Err(MissingField)
    ensures q.NotInt? ==> r == Err(NotAnInteger)
    ensures q.Parses? && q.n <= 0 ==> r == Err(NonPositiveQuantity)
  {
    match q
    case Absent => Err(MissingField)
    case NotInt => Err(NotAnInteger)
    case Parses(n) => if n <= 0 then Err(NonPositiveQuantity) else Ok(n)
  }

  /** Some row of `cart` is `uid`'s row for product `pid`. */
  ghost predicate HasLine(cart: map<int, CartItem>, uid: int, pid: int)
  {
    exists id :: id in cart && cart[id].userId == uid && cart[id].productId == pid
  }

  /** The query `CartItem.query.filter_by(user_id=uid, product_id=pid).first()`:
      the lowest-numbered row of `uid` for `pid`, or `None` when there is none. */
  method FindCartRow(cart: map<int, CartItem>, uid: int, pid: int, n: nat) returns (r: Option<int>)
    requires IdsBelow(cart, n)
    ensures r.None? <==> !HasLine(cart, uid, pid)
    ensures r.Some? ==> r.value in cart && cart[r.value].userId == uid && cart[r.value].productId == pid
    ensures r.Some? ==> forall id :: id in cart && id < r.value ==> cart[id].userId != uid || cart[id].productId != pid
  {
    var rows := CartRowsFor(cart, uid, pid, n);
    CartRowsForSpec(cart, uid, pid, n);
    if rows == [] {
      NoCartRowFor(cart, uid, pid, n);
      return None;
    }
    assert rows[0] in rows;
    forall id | id in cart && id < rows[0]
      ensures cart[id].userId != uid || cart[id].productId != pid
    {
      assert cart[id].userId == uid && cart[id].productId == pid ==> id in rows;
    }
    r := Some(rows[0]);
  }

  /** `add_to_cart`: `productId` is the request's `product_id` (absent: `None`),
      `quantity` its `quantity`. Checks run in the handler's order; a rejected
      request changes nothing. On success the caller's row for the product, if
      there is one, grows by the quantity, and otherwise exactly one new row is
      inserted; the result is the row's id. */
  method AddToCart(s: Store, uid: int, productId: Option<int>, quantity: IntField) returns (r: Result<int>)
    requires s.Valid()
    modifies s`cartItems, s`nextCartItemId
    ensures s.Valid()
    ensures r.Err? ==> s.cartItems == old(s.cartItems) && s.nextCartItemId == old(s.nextCartItemId)
    ensures productId.None? || productId == Some(0) ==> r == Err(MissingField)
    ensures productId.Some? && productId.value != 0 && AddQuantity(quantity).Err? ==>
      r == Err(AddQuantity(quantity).error)
    ensures (productId.Some? && productId.value != 0 && AddQuantity(quantity).Ok? &&
             !Orderable(s.products, productId.value)) ==> r == Err(ProductNotFound)
    ensures (productId.Some? && productId.value != 0 && AddQuantity(quantity).Ok? &&
             Orderable(s.products, productId.value) && uid !in s.users) ==> r == Err(UserNotFound)
    ensures r.Ok? <==>
      && productId.Some? && productId.value != 0 && AddQuantity(quantity).Ok?
      && Orderable(s.products, productId.value) && uid in s.users
    ensures r.Ok? && old(HasLine(s.cartItems, uid, productId.value)) ==>
      && r.value in old(s.cartItems)
      && old(s.cartItems)[r.value].userId == uid && old(s.cartItems)[r.value].productId == productId.value
      && s.cartItems == old(s.cartItems)[r.value := old(s.cartItems)[r.value].(
           quantity := old(s.cartItems)[r.value].quantity + AddQuantity(quantity).value)]
      && s.nextCartItemId == old(s.nextCartItemId)
    ensures r.Ok? && !old(HasLine(s.cartItems, uid, productId.value)) ==>
      && r.value == old(s.nextCartItemId) && r.value !in old(s.cartItems)
      && s.cartItems == old(s.cartItems)[r.value := CartItem(uid, productId.value, AddQuantity(quantity).value)]
      && s.nextCartItemId == old(s.nextCartItemId) + 1
  {
    if productId.None? || productId.value == 0 {
      return Err(MissingField);
    }
    var q := AddQuantity(quantity);
    if q.Err? {
      return Err(q.error);
    }
    var pid := productId.value;
    if pid !in s.products || !s.products[pid].available {
      return Err(ProductNotFound);
    }
    if uid !in s.users {
      return Err(UserNotFound);
    }
    var id := MergeIntoCart(s, uid, pid, q.value);
    r := Ok(id);
  }

  /** Two accepted `add_to_cart` requests for the same product leave one row
      whose quantity is their sum: adding 2 and then 3 gives a row of 5. */
  method AddTwiceMerges(s: Store, uid: int, pid: int, a: int, b: int) returns (first: Result<int>, second: Result<int>)
    requires s.Valid() && uid in s.users && pid != 0 && Orderable(s.products, pid) && a > 0 && b > 0
    requires !HasLine(s.cartItems, uid, pid)
    modifies s`cartItems, s`nextCartItemId
    ensures s.Valid()
    ensures first.Ok? && second == first
    ensures s.cartItems == old(s.cartItems)[first.value := CartItem(uid, pid, a + b)]
    ensures s.nextCartItemId == old(s.nextCartItemId) + 1
  {
    first := AddToCart(s, uid, Some(pid), Parses(a));
    assert HasLine(s.cartItems, uid, pid) by {
      assert s.cartItems[first.value].userId == uid && s.cartItems[first.value].productId == pid;
    }
    second := AddToCart(s, uid, Some(pid), Parses(b));
    assert second.value == first.value by {
      assert s.cartItems[first.value].productId == pid;
    }
  }

  /** The end of `add_to_cart`: the caller's row for product `pid`, if there is
      one, grows by `q`; otherwise exactly one new row is inserted. The result is
      the row's id. */
  method MergeIntoCart(s: Store, uid: int, pid: int, q: int) returns (id: int)
    requires s.Valid() && uid in s.users && q > 0
    modifies s`cartItems, s`nextCartItemId
    ensures s.Valid()
    ensures old(HasLine(s.cartItems, uid, pid)) ==>
      && id in old(s.cartItems) && old(s.cartItems)[id].userId == uid && old(s.cartItems)[id].productId == pid
      && s.cartItems == old(s.cartItems)[id := old(s.cartItems)[id].(quantity := old(s.cartItems)[id].quantity + q)]
      && s.nextCartItemId == old(s.nextCartItemId)
    ensures !old(HasLine(s.cartItems, uid, pid)) ==>
      && id == old(s.nextCartItemId) && id !in old(s.cartItems)
      && s.cartItems == old(s.cartItems)[id := CartItem(uid, pid, q)]
      && s.nextCartItemId == old(s.nextCartItemId) + 1
  {
    var existing := FindCartRow(s.cartItems, uid, pid, s.nextCartItemId);
    if existing.Some? {
      id := existing.value;
      GrowRow(s, id, q);
    } else {
      id := InsertRow(s, uid, pid, q);
    }
  }

  /** Adds `q` to the quantity of row `id`; nothing else changes. */
  method GrowRow(s: Store, id: int, q: int)
    requires s.Valid() && id in s.cartItems && q > 0
    modifies s`cartItems
    ensures s.Valid()
    ensures s.cartItems == old(s.cartItems)[id := old(s.cartItems)[id].(quantity := old(s.cartItems)[id].quantity + q)]
  {
    var merged := s.cartItems[id].(quantity := s.cartItems[id].quantity + q);
    RewriteKeepsOneRowPerProduct(s.cartItems, id, merged);
    s.cartItems := s.cartItems[id := merged];
  }

  /** Inserts the row (`uid`, `pid`, `q`) under the next fresh id, which it returns. */
  method InsertRow(s: Store, uid: int, pid: int, q: int) returns (id: int)
    requires s.Valid() && uid in s.users && q > 0
    requires forall k :: k in s.cartItems ==> s.cartItems[k].userId != uid || s.cartItems[k].productId != pid
    modifies s`cartItems, s`nextCartItemId
    ensures s.Valid()
    ensures id == old(s.nextCartItemId) && id !in old(s.cartItems)
    ensures s.cartItems == old(s.cartItems)[id := CartItem(uid, pid, q)]
    ensures s.nextCartItemId == old(s.nextCartItemId) + 1
  {
    id := s.nextCartItemId;
    InsertKeepsOneRowPerProduct(s.cartItems, id, CartItem(uid, pid, q));
    s.cartItems := s.cartItems[id := CartItem(uid, pid, q)];
    s.nextCartItemId := id + 1;
  }

  /** `update_cart`: the row must exist and be the caller's, then the new quantity
      must be present, an integer and positive. It REPLACES the row's quantity;
      every other row stays. A rejected request changes nothing. */
  method UpdateCart(s: Store, uid: int, cartId: int, quantity: IntField) returns (r: Result<CartItem>)
    requires s.Valid()
    modifies s`cartItems
    ensures s.Valid()
    ensures r.Err? ==> s.cartItems == old(s.cartItems)
    ensures uid !in s.users ==> r == Err(UserNotFound)
    ensures uid in s.users && (cartId !in old(s.cartItems) || old(s.cartItems)[cartId].userId != uid) ==>
      r == Err(NotFound)
    ensures (uid in s.users && cartId in old(s.cartItems) && old(s.cartItems)[cartId].userId == uid &&
             UpdateQuantity(quantity).Err?) ==> r == Err(UpdateQuantity(quantity).error)
    ensures (uid in s.users && cartId in old(s.cartItems) && old(s.cartItems)[cartId].userId == uid &&
             UpdateQuantity(quantity).Ok?) ==> r.Ok?
    ensures r.Ok? ==>
      && uid in s.users && cartId in old(s.cartItems) && old(s.cartItems)[cartId].userId == uid
      && UpdateQuantity(quantity).Ok?
      && r.value == old(s.cartItems)[cartId].(quantity := UpdateQuantity(quantity).value)
      && s.cartItems == old(s.cartItems)[cartId := r.value]
  {
    if uid !in s.users {
      return Err(UserNotFound);
    }
    if cartId !in s.cartItems || s.cartItems[cartId].userId != uid {
      return Err(NotFound);
    }
    var q := UpdateQuantity(quantity);
    if q.Err? {
      return Err(q.error);
    }
    var item := s.cartItems[cartId].(quantity := q.value);
    s.cartItems := s.cartItems[cartId := item];
    r := Ok(item);
  }

  /** `delete_cart_item`: removes exactly the caller's row `cartId`; a row that is
      missing or someone else's gives `NotFound` and nothing changes. */
  method DeleteCartItem(s: Store, uid: int, cartId: int) returns (r: Result<()>)
    requires s.Valid()
    modifies s`cartItems
    ensures s.Valid()
    ensures r.Err? ==> s.cartItems == old(s.cartItems)
    ensures uid !in s.users ==> r == Err(UserNotFound)
    ensures uid in s.users && (cartId !in old(s.cartItems) || old(s.cartItems)[cartId].userId != uid) ==>
      r == Err(NotFound)
    ensures uid in s.users && cartId in old(s.cartItems) && old(s.cartItems)[cartId].userId == uid ==> r.Ok?
    ensures r.Ok? ==>
      && uid in s.users && cartId in old(s.cartItems) && old(s.cartItems)[cartId].userId == uid
      && s.cartItems == old(s.cartItems) - {cartId}
  {
    if uid !in s.users {
      return Err(UserNotFound);
    }
    if cartId !in s.cartItems || s.cartItems[cartId].userId != uid {
      return Err(NotFound);
    }
    s.cartItems := s.cartItems - {cartId};
    r := Ok(());
  }
}
