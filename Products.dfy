/** The catalogue of products.py: the upsert-by-name sync from the payment
    provider's product feed, and creating, reading, updating and deleting one
    product. */
module Products {
  import opened Models

  // ---------------------------------------------------------------------------
  // The feed sync

  /** One product record of the provider's feed: its name, the unit amount of
      its default price in cents (if it has one), whether it is active, its
      images and its description. */
  datatype FeedProduct = FeedProduct(name: string, unitAmount: Option<nat>, active: bool,
                                     images: seq<string>, description: Option<string>)

  /** The product table together with its id counter. */
  datatype Catalogue = Catalogue(products: map<int, Product>, next: nat)

  /** The price a feed record sets: its unit amount, or 0 when it has none. */
  function FeedPrice(fp: FeedProduct): nat
  {
    if fp.unitAmount.Some? then fp.unitAmount.value else 0
  }

  /** The image a feed record sets: its first image, or none. */
  function FeedImage(images: seq<string>): Option<string>
  {
    if images == [] then None else Some(images[0])
  }

  /** `p` carries the four fields a feed record sets. */
  predicate HasFeedFields(p: Product, fp: FeedProduct)
  {
    p.price == FeedPrice(fp) && p.available == fp.active && p.imageUrl == FeedImage(fp.images) &&
    p.description == fp.description
  }

  /** One iteration of the loop of products.py:32-60: the first product with the
      record's name has its price, availability, image and description
      overwritten; when there is none, a new product with inventory 0 is added. */
  function SyncStep(c: Catalogue, fp: FeedProduct): Catalogue
  {
    var ids := ProductsNamed(c.products, fp.name, c.next);
    if ids != [] then
      var p := c.products[ids[0]];
      Catalogue(c.products[ids[0] := p.(price := FeedPrice(fp), available := fp.active,
                                         imageUrl := FeedImage(fp.images), description := fp.description)], c.next)
    else
      Catalogue(c.products[c.next := Product(fp.name, FeedPrice(fp), FeedImage(fp.images), 0, fp.active,
                                             fp.description)], c.next + 1)
  }

  /** The whole loop: the records of `feed`, in order. */
  function SyncAll(c: Catalogue, feed: seq<FeedProduct>): Catalogue
  {
    if feed == [] then c else SyncStep(SyncAll(c, feed[..|feed| - 1]), feed[|feed| - 1])
  }

  /** One step keeps every product's id, name and inventory, and adds a product
      exactly when none had the record's name. */
  lemma StepKeeps(c: Catalogue, fp: FeedProduct)
    requires 1 <= c.next && IdsBelow(c.products, c.next)
    ensures var d := SyncStep(c, fp);
      && IdsBelow(d.products, d.next) && c.next <= d.next
      && (forall id :: id in c.products ==>
            id in d.products && d.products[id].name == c.products[id].name &&
            d.products[id].inventory == c.products[id].inventory)
      && (d.next == c.next + 1 <==> forall id :: id in c.products ==> c.products[id].name != fp.name)
  {
    ProductsNamedSpec(c.products, fp.name, c.next);
    var ids := ProductsNamed(c.products, fp.name, c.next);
    if ids != [] {
      assert ids[0] in ids;
    }
  }

  /** One step touches only products named like the record, and what it adds is
      named like the record and has inventory 0. */
  lemma StepTouchesOnlyNamed(c: Catalogue, fp: FeedProduct)
    requires 1 <= c.next && IdsBelow(c.products, c.next)
    ensures var d := SyncStep(c, fp);
      && (forall id :: id in c.products && c.products[id].name != fp.name ==> d.products[id] == c.products[id])
      && (forall id :: id in d.products && id !in c.products ==>
            d.products[id].inventory == 0 && d.products[id].name == fp.name)
  {
    ProductsNamedSpec(c.products, fp.name, c.next);
  }

  /** After one step, a product named like the record carries its fields. */
  lemma StepSetsFields(c: Catalogue, fp: FeedProduct)
    ensures var d := SyncStep(c, fp);
      exists id :: id in d.products && d.products[id].name == fp.name && HasFeedFields(d.products[id], fp)
  {
    var ids := ProductsNamed(c.products, fp.name, c.next);
    var d := SyncStep(c, fp);
    if ids != [] {
      ProductsNamedSpec(c.products, fp.name, c.next);
      assert ids[0] in ids;
      assert d.products[ids[0]].name == fp.name && HasFeedFields(d.products[ids[0]], fp);
    } else {
      assert d.products[c.next].name == fp.name && HasFeedFields(d.products[c.next], fp);
    }
  }

  /** Unfolding the sync at its last record. */
  lemma SyncAllLast(c: Catalogue, feed: seq<FeedProduct>)
    requires feed != []
    ensures SyncAll(c, feed) == SyncStep(SyncAll(c, feed[..|feed| - 1]), feed[|feed| - 1])
  {
  }

  /** The sync keeps every product's id, name and inventory. */
  lemma {:induction false} SyncKeeps(c: Catalogue, feed: seq<FeedProduct>)
    requires 1 <= c.next && IdsBelow(c.products, c.next)
    ensures var d := SyncAll(c, feed);
      && IdsBelow(d.products, d.next) && c.next <= d.next
      && (forall id :: id in c.products ==>
            id in d.products && d.products[id].name == c.products[id].name &&
            d.products[id].inventory == c.products[id].inventory)
  {
    if feed != [] {
      var n := |feed| - 1;
      SyncKeeps(c, feed[..n]);
      SyncAllLast(c, feed);
      StepKeeps(SyncAll(c, feed[..n]), feed[n]);
    }
  }

  /** Products whose name no record carries are left as they were. */
  lemma {:induction false} SyncLeavesUnnamed(c: Catalogue, feed: seq<FeedProduct>, id: int)
    requires 1 <= c.next && IdsBelow(c.products, c.next) && id in c.products
    requires forall k :: 0 <= k < |feed| ==> feed[k].name != c.products[id].name
    ensures id in SyncAll(c, feed).products && SyncAll(c, feed).products[id] == c.products[id]
  {
    if feed != [] {
      var n := |feed| - 1;
      var prefix := feed[..n];
      assert forall k :: 0 <= k < n ==> prefix[k] == feed[k];
      SyncLeavesUnnamed(c, prefix, id);
      SyncKeeps(c, prefix);
      SyncAllLast(c, feed);
      assert feed[n].name != c.products[id].name;
      StepTouchesOnlyNamed(SyncAll(c, prefix), feed[n]);
    }
  }

  /** After the sync, every record's name is the name of some product. */
  lemma {:induction false} SyncCoversFeed(c: Catalogue, feed: seq<FeedProduct>, k: int)
    requires 1 <= c.next && IdsBelow(c.products, c.next) && 0 <= k < |feed|
    ensures exists id :: id in SyncAll(c, feed).products && SyncAll(c, feed).products[id].name == feed[k].name
  {
    var n := |feed| - 1;
    var prefix := feed[..n];
    var m := SyncAll(c, prefix);
    SyncAllLast(c, feed);
    if k == n {
      StepSetsFields(m, feed[n]);
    } else {
      SyncCoversFeed(c, prefix, k);
      SyncKeeps(c, prefix);
      var id :| id in m.products && m.products[id].name == prefix[k].name;
      StepKeeps(m, feed[n]);
      assert SyncAll(c, feed).products[id].name == feed[k].name;
    }
  }

  /** What the sync adds has inventory 0 and the name of some record. */
  lemma {:induction false} SyncAddsFromFeed(c: Catalogue, feed: seq<FeedProduct>, id: int)
    requires 1 <= c.next && IdsBelow(c.products, c.next)
    requires id in SyncAll(c, feed).products && id !in c.products
    ensures SyncAll(c, feed).products[id].inventory == 0
    ensures exists k :: 0 <= k < |feed| && feed[k].name == SyncAll(c, feed).products[id].name
  {
    var n := |feed| - 1;
    var prefix := feed[..n];
    var m := SyncAll(c, prefix);
    SyncAllLast(c, feed);
    SyncKeeps(c, prefix);
    var d := SyncAll(c, feed);
    if id in m.products {
      SyncAddsFromFeed(c, prefix, id);
      var k :| 0 <= k < n && prefix[k].name == m.products[id].name;
      StepKeeps(m, feed[n]);
      assert feed[k].name == d.products[id].name;
    } else {
      StepTouchesOnlyNamed(m, feed[n]);
      assert feed[n].name == d.products[id].name;
    }
  }

  /** After the sync, a product named like the last record carries its price,
      availability, image and description. */
  lemma SyncLastWins(c: Catalogue, feed: seq<FeedProduct>)
    requires feed != []
    ensures var d := SyncAll(c, feed);
      exists id :: id in d.products && d.products[id].name == feed[|feed| - 1].name &&
        HasFeedFields(d.products[id], feed[|feed| - 1])
  {
    SyncAllLast(c, feed);
    StepSetsFields(SyncAll(c, feed[..|feed| - 1]), feed[|feed| - 1]);
  }

  /** One step keeps prices and inventories non-negative. */
  lemma StepKeepsProductRowsOk(c: Catalogue, fp: FeedProduct)
    requires 1 <= c.next && IdsBelow(c.products, c.next) && ProductRowsOk(c.products)
    ensures ProductRowsOk(SyncStep(c, fp).products)
  {
    var d := SyncStep(c, fp);
    var ids := ProductsNamed(c.products, fp.name, c.next);
    forall id | id in d.products
      ensures d.products[id].price >= 0 && d.products[id].inventory >= 0
    {
      if ids != [] && id != ids[0] {
        assert d.products[id] == c.products[id];
      } else if ids == [] && id != c.next {
        assert d.products[id] == c.products[id];
      }
    }
  }

  /** The sync leaves every price and inventory non-negative: prices come from
      unit amounts, which are never negative, and inventories are kept or 0. */
  lemma {:induction false} SyncKeepsProductRowsOk(c: Catalogue, feed: seq<FeedProduct>)
    requires 1 <= c.next && IdsBelow(c.products, c.next) && ProductRowsOk(c.products)
    ensures ProductRowsOk(SyncAll(c, feed).products)
  {
    if feed != [] {
      var n := |feed| - 1;
      SyncKeepsProductRowsOk(c, feed[..n]);
      SyncKeeps(c, feed[..n]);
      SyncAllLast(c, feed);
      StepKeepsProductRowsOk(SyncAll(c, feed[..n]), feed[n]);
    }
  }

  /** The sync keeps every constraint of the schema: it only rewrites products. */
  lemma SyncKeepsConsistent(users: map<int, User>, products: map<int, Product>,
                            cart: map<int, CartItem>, orders: map<int, Order>,
                            items: map<int, OrderItem>, nu: nat, np: nat, nc: nat, no: nat, ni: nat,
                            feed: seq<FeedProduct>)
    requires Consistent(users, products, cart, orders, items, nu, np, nc, no, ni)
    ensures var d := SyncAll(Catalogue(products, np), feed);
      Consistent(users, d.products, cart, orders, items, nu, d.next, nc, no, ni)
  {
    SyncKeeps(Catalogue(products, np), feed);
    SyncKeepsProductRowsOk(Catalogue(products, np), feed);
  }

  /** The body of the loop of products.py:32-60 for one record, in place. */
  method ApplyRecord(s: Store, fp: FeedProduct)
    modifies s`products, s`nextProductId
    ensures Catalogue(s.products, s.nextProductId) == SyncStep(Catalogue(old(s.products), old(s.nextProductId)), fp)
  {
    var ids := ProductsNamed(s.products, fp.name, s.nextProductId);
    if ids != [] {
      var p := s.products[ids[0]];
      s.products := s.products[ids[0] := p.(price := FeedPrice(fp), available := fp.active,
                                             imageUrl := FeedImage(fp.images), description := fp.description)];
    } else {
      s.products := s.products[s.nextProductId := Product(fp.name, FeedPrice(fp), FeedImage(fp.images), 0,
                                                          fp.active, fp.description)];
      s.nextProductId := s.nextProductId + 1;
    }
  }

  /** `add_stripe_products`: with no API key configured, or when listing the
      feed fails (`feed` is `None`), nothing changes; otherwise every record of
      the feed is applied in order and the result committed. */
  method SyncFeed(s: Store, configured: bool, feed: Option<seq<FeedProduct>>)
    requires s.Valid()
    modifies s`products, s`nextProductId
    ensures s.Valid()
    ensures !configured || feed.None? ==> s.products == old(s.products) && s.nextProductId == old(s.nextProductId)
    ensures configured && feed.Some? ==>
      Catalogue(s.products, s.nextProductId) == SyncAll(Catalogue(old(s.products), old(s.nextProductId)), feed.value)
  {
    if !configured || feed.None? {
      return;
    }
    var records := feed.value;
    ghost var c0 := Catalogue(s.products, s.nextProductId);
    SyncKeepsConsistent(s.users, s.products, s.cartItems, s.orders, s.orderItems, s.nextUserId,
                        s.nextProductId, s.nextCartItemId, s.nextOrderId, s.nextOrderItemId, records);
    var i := 0;
    while i < |records|
      invariant 0 <= i <= |records|
      invariant Catalogue(s.products, s.nextProductId) == SyncAll(c0, records[..i])
    {
      ApplyRecord(s, records[i]);
      SyncAllLast(c0, records[..i + 1]);
      assert records[..i + 1][..i] == records[..i];
      i := i + 1;
    }
    assert records[..i] == records;
  }

  // ---------------------------------------------------------------------------
  // Create, read, update, delete

  /** The JSON body of a create request. `name` is `None` when it is absent,
      null or empty (all falsy); `price` is `None` when absent or null. */
  datatype ProductRequest = ProductRequest(name: Option<string>, price: Option<int>, imageUrl: Option<string>,
                                           inventory: IntField, available: Option<bool>,
                                           description: Option<string>)

  /** The inventory a create stores: the field's integer value, 0 when the field
      is absent, and nothing when it does not convert. */
  function CreateInventory(f: IntField): (r: Option<int>)
    ensures r.None? <==> f.NotInt?
    ensures f.Absent? ==> r == Some(0)
    ensures f.Parses? ==> r == Some(f.n)
  {
    match f
    case Absent => Some(0)
    case Parses(n) => Some(n)
    case NotInt => None
  }

  /** `create_product`. In the source's order: a missing name or price, a missing
      user, an inventory that is not an integer, and a negative price or
      inventory (refused by the CHECKs at the commit) are rejected with no
      change; otherwise exactly one product is added, under the next id, with
      the given fields, inventory 0 and `available` true by default. */
  method CreateProduct(s: Store, uid: int, req: ProductRequest) returns (r: Result<int>)
    requires s.Valid()
    modifies s`products, s`nextProductId
    ensures s.Valid()
    ensures r.Err? ==> s.products == old(s.products) && s.nextProductId == old(s.nextProductId)
    ensures req.name.None? || req.price.None? ==> r == Err(MissingField)
    ensures req.name.Some? && req.price.Some? && uid !in s.users ==> r == Err(UserNotFound)
    ensures req.name.Some? && req.price.Some? && uid in s.users && req.inventory.NotInt? ==>
      r == Err(NotAnInteger)
    ensures req.name.Some? && req.price.Some? && uid in s.users && !req.inventory.NotInt? ==>
      var inventory := CreateInventory(req.inventory).value;
      && (req.price.value < 0 || inventory < 0 ==> r == Err(ConstraintViolation))
      && (req.price.value >= 0 && inventory >= 0 ==>
            && r == Ok(old(s.nextProductId))
            && s.products == old(s.products)[r.value := Product(req.name.value, req.price.value, req.imageUrl,
                 inventory, if req.available.Some? then req.available.value else true, req.description)]
            && s.nextProductId == old(s.nextProductId) + 1)
  {
    if req.name.None? || req.price.None? {
      return Err(MissingField);
    }
    if uid !in s.users {
      return Err(UserNotFound);
    }
    var inventory := CreateInventory(req.inventory);
    if inventory.None? {
      return Err(NotAnInteger);
    }
    var available := if req.available.Some? then req.available.value else true;
    var p := Product(req.name.value, req.price.value, req.imageUrl, inventory.value, available, req.description);
    if p.price < 0 || p.inventory < 0 {
      return Err(ConstraintViolation);
    }
    s.products := s.products[s.nextProductId := p];
    s.nextProductId := s.nextProductId + 1;
    r := Ok(s.nextProductId - 1);
  }

  /** `get_product`: the product, or 404 when there is none (no caller check). */
  function GetProduct(s: Store, pid: int): (r: Result<Product>)
    reads s
    ensures r.Ok? <==> pid in s.products
    ensures r.Ok? ==> r.value == s.products[pid]
    ensures r.Err? ==> r.error == ProductNotFound
  {
    if pid in s.products then Ok(s.products[pid]) else Err(ProductNotFound)
  }

  /** The JSON body of an update request: each field is `None` when its key is
      absent; a present `image_url` or `description` may be null. */
  datatype ProductPatch = ProductPatch(name: Option<string>, price: Option<int>,
                                       imageUrl: Option<Option<string>>, inventory: IntField,
                                       available: Option<bool>, description: Option<Option<string>>)

  /** The patch with no key at all. */
  const EmptyPatch := ProductPatch(None, None, None, Absent, None, None)

  /** The product after the field assignments of products.py:169-183, or the
      error an inventory that does not convert raises. */
  function ApplyPatch(p: Product, patch: ProductPatch): Result<Product>
  {
    if patch.inventory.NotInt? then Err(NotAnInteger)
    else
      Ok(Product(
        if patch.name.Some? then patch.name.value else p.name,
        if patch.price.Some? then patch.price.value else p.price,
        if patch.imageUrl.Some? then patch.imageUrl.value else p.imageUrl,
        if patch.inventory.Parses? then patch.inventory.n else p.inventory,
        if patch.available.Some? then patch.available.value else p.available,
        if patch.description.Some? then patch.description.value else p.description))
  }

  /** Applying the same patch twice is applying it once. */
  lemma ApplyPatchIdempotent(p: Product, patch: ProductPatch)
    requires ApplyPatch(p, patch).Ok?
    ensures ApplyPatch(ApplyPatch(p, patch).value, patch) == ApplyPatch(p, patch)
  {
  }

  /** The conditional assignments of products.py:169-183 on the stored product
      `p`, in the source's order: each field present in the body is assigned,
      and an inventory that is not an integer stops the handler. Fields absent
      from the body keep their value. */
  method AssignFields(p: Product, patch: ProductPatch) returns (r: Result<Product>)
    ensures r == ApplyPatch(p, patch)
    ensures r.Err? <==> patch.inventory.NotInt?
    ensures r.Ok? ==>
      && (patch.name.None? ==> r.value.name == p.name)
      && (patch.price.None? ==> r.value.price == p.price)
      && (patch.imageUrl.None? ==> r.value.imageUrl == p.imageUrl)
      && (patch.inventory.Absent? ==> r.value.inventory == p.inventory)
      && (patch.available.None? ==> r.value.available == p.available)
      && (patch.description.None? ==> r.value.description == p.description)
  {
    var q := p;
    if patch.name.Some? {
      q := q.(name := patch.name.value);
    }
    if patch.price.Some? {
      q := q.(price := patch.price.value);
    }
    if patch.imageUrl.Some? {
      q := q.(imageUrl := patch.imageUrl.value);
    }
    match patch.inventory {
      case NotInt => return Err(NotAnInteger);
      case Parses(n) => q := q.(inventory := n);
      case Absent =>
    }
    if patch.available.Some? {
      q := q.(available := patch.available.value);
    }
    if patch.description.Some? {
      q := q.(description := patch.description.value);
    }
    r := Ok(q);
  }

  /** `update_product`: after the caller and product checks, the fields present
      in the body are assigned. An inventory that is not an integer returns
      before the commit, so nothing is stored; so does a negative price or
      inventory, which the CHECKs refuse at the commit. Otherwise exactly that
      product is replaced by its patched version. */
  method UpdateProduct(s: Store, uid: int, pid: int, patch: ProductPatch) returns (r: Result<Product>)
    requires s.Valid()
    modifies s`products
    ensures s.Valid()
    ensures r.Err? ==> s.products == old(s.products)
    ensures uid !in s.users ==> r == Err(UserNotFound)
    ensures uid in s.users && pid !in old(s.products) ==> r == Err(NotFound)
    ensures uid in s.users && pid in old(s.products) ==>
      match ApplyPatch(old(s.products)[pid], patch)
      case Err(e) => r == Err(e)
      case Ok(p) =>
        && (p.price < 0 || p.inventory < 0 ==> r == Err(ConstraintViolation))
        && (p.price >= 0 && p.inventory >= 0 ==> r == Ok(p) && s.products == old(s.products)[pid := p])
    ensures uid in s.users && pid in old(s.products) && patch == EmptyPatch ==>
      r == Ok(old(s.products)[pid]) && s.products == old(s.products)
  {
    if uid !in s.users {
      return Err(UserNotFound);
    }
    if pid !in s.products {
      return Err(NotFound);
    }
    var patched := AssignFields(s.products[pid], patch);
    if patched.Err? {
      return patched;
    }
    var p := patched.value;
    if p.price < 0 || p.inventory < 0 {
      return Err(ConstraintViolation);
    }
    s.products := s.products[pid := p];
    r := Ok(p);
  }

  /** `delete_product`: after the caller and product checks, exactly that product
      is removed. */
  method DeleteProduct(s: Store, uid: int, pid: int) returns (r: Result<()>)
    requires s.Valid()
    modifies s`products
    ensures s.Valid()
    ensures r.Err? ==> s.products == old(s.products)
    ensures uid !in s.users ==> r == Err(UserNotFound)
    ensures uid in s.users && pid !in old(s.products) ==> r == Err(NotFound)
    ensures uid in s.users && pid in old(s.products) ==> r == Ok(()) && s.products == old(s.products) - {pid}
    ensures r.Ok? ==> GetProduct(s, pid) == Err(ProductNotFound)
  {
    if uid !in s.users {
      return Err(UserNotFound);
    }
    if pid !in s.products {
      return Err(NotFound);
    }
    s.products := s.products - {pid};
    r := Ok(());
  }
}
