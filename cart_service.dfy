/**
 * Cart mutations of src/services/cart.service.ts. Each operation is a single
 * write to the user's cart in the store; the variant lookups go to the search
 * index, whose product-variant collection is passed in as `catalog`.
 */
module CartService {
  import opened Wrappers
  import opened Models

  datatype CartError =
    | VariantNotFound   // 'Product variant not found'
    | CartNotFound      // 'Cart not found'
    | ItemNotFound      // 'Item not found in cart'
    | UpdateFailed      // 'Failed to update cart'

  /** A cart line as returned to the client: everything but `original_price`. */
  datatype ItemView = ItemView(
    product_variant_id: Id,
    product_variant_name: string,
    attributes: map<string, string>,
    quantity: int,
    unit_price: real,
    discount: real,
    image: Option<string>)

  function ProjectItem(item: CartItem): ItemView {
    ItemView(item.product_variant_id, item.product_variant_name, item.attributes,
             item.quantity, item.unit_price, item.discount, item.image)
  }

  function Project(items: seq<CartItem>): (r: seq<ItemView>)
    ensures |r| == |items|
    ensures forall i :: 0 <= i < |items| ==> r[i] == ProjectItem(items[i])
  {
    if items == [] then [] else [ProjectItem(items[0])] + Project(items[1..])
  }

  /** Two lines project alike exactly when they differ at most in `original_price`. */
  lemma ProjectionHidesOnlyOriginalPrice(a: CartItem, b: CartItem)
    ensures ProjectItem(a) == ProjectItem(b) <==> a.(original_price := b.original_price) == b
  {
  }

  predicate HasItem(items: seq<CartItem>, id: Id) {
    exists i :: 0 <= i < |items| && items[i].product_variant_id == id
  }

  /** At most one line per variant. */
  predicate DistinctVariants(items: seq<CartItem>) {
    forall i, j :: 0 <= i < j < |items| ==> items[i].product_variant_id != items[j].product_variant_id
  }

  predicate CartsDistinct(carts: map<Id, seq<CartItem>>) {
    forall u :: u in carts ==> DistinctVariants(carts[u])
  }

  /** `images[0]`, or nothing for a variant without images. */
  function FirstImage(images: seq<string>): (r: Option<string>)
    ensures r.Some? <==> |images| > 0
    ensures r.Some? ==> r.value == images[0]
  {
    if images == [] then None else Some(images[0])
  }

  /** The line appended for a variant not yet in the cart, priced from the catalog. */
  function NewItem(id: Id, v: Variant, quantity: int): (item: CartItem)
    ensures item.product_variant_id == id && item.quantity == quantity
    ensures item.unit_price == v.price && item.discount == v.discount
    ensures item.original_price == v.original_price
    ensures item.product_variant_name == v.variant_name && item.attributes == v.attributes
    ensures item.image == FirstImage(v.images)
  {
    CartItem(id, v.variant_name, v.attributes, quantity, v.original_price, v.price, v.discount,
             FirstImage(v.images))
  }

  /** `$inc` on every line matching the array filter. */
  function IncrementItem(items: seq<CartItem>, id: Id, quantity: int): (r: seq<CartItem>)
    ensures |r| == |items|
    ensures forall i :: 0 <= i < |items| ==>
      r[i] == if items[i].product_variant_id == id
              then items[i].(quantity := items[i].quantity + quantity) else items[i]
  {
    if items == [] then []
    else
      var head := if items[0].product_variant_id == id
                  then items[0].(quantity := items[0].quantity + quantity) else items[0];
      [head] + IncrementItem(items[1..], id, quantity)
  }

  /** `$set` of the quantity on every line matching the array filter. */
  function SetItemQuantity(items: seq<CartItem>, id: Id, quantity: int): (r: seq<CartItem>)
    ensures |r| == |items|
    ensures forall i :: 0 <= i < |items| ==>
      r[i] == if items[i].product_variant_id == id then items[i].(quantity := quantity) else items[i]
  {
    if items == [] then []
    else
      var head := if items[0].product_variant_id == id then items[0].(quantity := quantity) else items[0];
      [head] + SetItemQuantity(items[1..], id, quantity)
  }

  /** `items.filter(item => item.product_variant_id !== id)`. */
  function RemoveItem(items: seq<CartItem>, id: Id): (r: seq<CartItem>)
    ensures |r| <= |items|
    ensures !HasItem(r, id)
    ensures forall x :: x in r ==> x in items
  {
    if items == [] then []
    else if items[0].product_variant_id == id then RemoveItem(items[1..], id)
    else [items[0]] + RemoveItem(items[1..], id)
  }

  /** The filter distributes over concatenation, so the remaining lines keep their order. */
  lemma {:induction false} RemoveItemAppend(a: seq<CartItem>, b: seq<CartItem>, id: Id)
    ensures RemoveItem(a + b, id) == RemoveItem(a, id) + RemoveItem(b, id)
  {
    if a == [] {
      assert a + b == b;
    } else {
      assert (a + b)[1..] == a[1..] + b;
      RemoveItemAppend(a[1..], b, id);
    }
  }

  /** Every line of another variant survives, each as many times as before. */
  lemma {:induction false} RemoveItemKeepsOthers(items: seq<CartItem>, id: Id, x: CartItem)
    requires x.product_variant_id != id
    ensures multiset(RemoveItem(items, id))[x] == multiset(items)[x]
  {
    if items != [] {
      RemoveItemKeepsOthers(items[1..], id, x);
      assert items == [items[0]] + items[1..];
    }
  }

  /** Removing a variant the cart lacks leaves the lines unchanged. */
  lemma {:induction false} RemoveAbsentItem(items: seq<CartItem>, id: Id)
    requires !HasItem(items, id)
    ensures RemoveItem(items, id) == items
  {
    if items != [] {
      assert !HasItem(items[1..], id) by {
        forall i | 0 <= i < |items[1..]| ensures items[1..][i].product_variant_id != id {
          assert items[1..][i] == items[i + 1];
        }
      }
      RemoveAbsentItem(items[1..], id);
    }
  }

  /** Removal is idempotent. */
  lemma RemoveItemIdempotent(items: seq<CartItem>, id: Id)
    ensures RemoveItem(RemoveItem(items, id), id) == RemoveItem(items, id)
  {
    RemoveAbsentItem(RemoveItem(items, id), id);
  }

  lemma {:induction false} RemoveItemKeepsDistinct(items: seq<CartItem>, id: Id)
    requires DistinctVariants(items)
    ensures DistinctVariants(RemoveItem(items, id))
  {
    if items != [] {
      var rest := RemoveItem(items[1..], id);
      assert DistinctVariants(items[1..]) by {
        forall i, j | 0 <= i < j < |items[1..]|
          ensures items[1..][i].product_variant_id != items[1..][j].product_variant_id
        {
          assert items[1..][i] == items[i + 1] && items[1..][j] == items[j + 1];
        }
      }
      RemoveItemKeepsDistinct(items[1..], id);
      if items[0].product_variant_id != id {
        forall x | x in rest ensures x.product_variant_id != items[0].product_variant_id {
          assert x in items[1..];
        }
        var r := [items[0]] + rest;
        forall i, j | 0 <= i < j < |r| ensures r[i].product_variant_id != r[j].product_variant_id {
          if i == 0 {
            assert r[j] == rest[j - 1] && r[j] in rest;
          } else {
            assert r[i] == rest[i - 1] && r[j] == rest[j - 1];
          }
        }
      }
    }
  }

  /**
   * In a cart with one line per variant, incrementing a present variant
   * changes exactly that line, by exactly `quantity`, and keeps one line per variant.
   */
  lemma IncrementChangesOneLine(items: seq<CartItem>, id: Id, quantity: int)
    requires DistinctVariants(items) && HasItem(items, id)
    ensures DistinctVariants(IncrementItem(items, id, quantity))
    ensures exists k :: (0 <= k < |items| && items[k].product_variant_id == id
      && IncrementItem(items, id, quantity)[k] == items[k].(quantity := items[k].quantity + quantity)
      && forall j :: 0 <= j < |items| && j != k ==> IncrementItem(items, id, quantity)[j] == items[j])
  {
    var k :| 0 <= k < |items| && items[k].product_variant_id == id;
    var r := IncrementItem(items, id, quantity);
    forall j | 0 <= j < |items| && j != k ensures r[j] == items[j] {
      assert items[j].product_variant_id != id;
    }
  }

  lemma SetQuantityKeepsDistinct(items: seq<CartItem>, id: Id, quantity: int)
    requires DistinctVariants(items)
    ensures DistinctVariants(SetItemQuantity(items, id, quantity))
  {
  }

  /** Appending a variant the cart lacks keeps one line per variant. */
  lemma AppendNewKeepsDistinct(items: seq<CartItem>, item: CartItem)
    requires DistinctVariants(items) && !HasItem(items, item.product_variant_id)
    ensures DistinctVariants(items + [item])
  {
    var r := items + [item];
    forall i, j | 0 <= i < j < |r| ensures r[i].product_variant_id != r[j].product_variant_id {
      if j == |items| {
        assert r[i] == items[i];
      } else {
        assert r[i] == items[i] && r[j] == items[j];
      }
    }
  }

  /** The cart lines after adding `quantity` of a listed variant. */
  function Added(carts: map<Id, seq<CartItem>>, userId: Id, id: Id, v: Variant, quantity: int): seq<CartItem> {
    if userId in carts && HasItem(carts[userId], id) then IncrementItem(carts[userId], id, quantity)
    else (if userId in carts then carts[userId] else []) + [NewItem(id, v, quantity)]
  }

  /** Adding keeps every cart at one line per variant, and the added variant is in the cart. */
  lemma AddedKeepsDistinct(carts: map<Id, seq<CartItem>>, userId: Id, id: Id, v: Variant, quantity: int)
    requires CartsDistinct(carts)
    ensures CartsDistinct(carts[userId := Added(carts, userId, id, v, quantity)])
    ensures HasItem(Added(carts, userId, id, v, quantity), id)
  {
    var items := if userId in carts then carts[userId] else [];
    if userId in carts && HasItem(items, id) {
      IncrementChangesOneLine(items, id, quantity);
      var k :| 0 <= k < |items| && items[k].product_variant_id == id;
      assert IncrementItem(items, id, quantity)[k].product_variant_id == id;
    } else {
      AppendNewKeepsDistinct(items, NewItem(id, v, quantity));
      assert (items + [NewItem(id, v, quantity)])[|items|].product_variant_id == id;
    }
  }

  /**
   * addItemToCart: increment the existing line in place, or else append a new
   * one, creating the cart if the user has none.
   */
  method AddItemToCart(db: Db, catalog: map<Id, Variant>, userId: Id, variantId: Id, quantity: int)
    returns (r: Result<seq<ItemView>, CartError>)
    modifies db
    ensures db.variants == old(db.variants) && db.coupons == old(db.coupons) && db.users == old(db.users)
    ensures db.orders == old(db.orders) && db.reviews == old(db.reviews)
    ensures !ActiveIn(catalog, variantId) ==> r == Err(VariantNotFound) && db.carts == old(db.carts)
    ensures ActiveIn(catalog, variantId) ==>
      db.carts == old(db.carts)[userId := Added(old(db.carts), userId, variantId, catalog[variantId], quantity)]
      && r == Ok(Project(db.carts[userId]))
    ensures CartsDistinct(old(db.carts)) ==> CartsDistinct(db.carts)
  {
    if !ActiveIn(catalog, variantId) {
      return Err(VariantNotFound);
    }
    var v := catalog[variantId];
    if userId in db.carts && HasItem(db.carts[userId], variantId) {
      db.carts := db.carts[userId := IncrementItem(db.carts[userId], variantId, quantity)];
    } else {
      var items := if userId in db.carts then db.carts[userId] else [];
      db.carts := db.carts[userId := items + [NewItem(variantId, v, quantity)]];
    }
    if CartsDistinct(old(db.carts)) {
      AddedKeepsDistinct(old(db.carts), userId, variantId, v, quantity);
    }
    r := Ok(Project(db.carts[userId]));
  }

  /** updateItemQuantity: set the quantity of the matching line. */
  method UpdateItemQuantity(db: Db, catalog: map<Id, Variant>, userId: Id, variantId: Id, quantity: int)
    returns (r: Result<seq<ItemView>, CartError>)
    modifies db
    ensures db.variants == old(db.variants) && db.coupons == old(db.coupons) && db.users == old(db.users)
    ensures db.orders == old(db.orders) && db.reviews == old(db.reviews)
    ensures !ActiveIn(catalog, variantId) ==> r == Err(VariantNotFound) && db.carts == old(db.carts)
    ensures ActiveIn(catalog, variantId) && userId !in old(db.carts) ==>
      r == Err(CartNotFound) && db.carts == old(db.carts)
    ensures ActiveIn(catalog, variantId) && userId in old(db.carts) && !HasItem(old(db.carts)[userId], variantId) ==>
      r == Err(ItemNotFound) && db.carts == old(db.carts)
    ensures ActiveIn(catalog, variantId) && userId in old(db.carts) && HasItem(old(db.carts)[userId], variantId) ==>
      db.carts == old(db.carts)[userId := SetItemQuantity(old(db.carts)[userId], variantId, quantity)]
      && r == Ok(Project(db.carts[userId]))
    ensures CartsDistinct(old(db.carts)) ==> CartsDistinct(db.carts)
  {
    if !ActiveIn(catalog, variantId) {
      return Err(VariantNotFound);
    }
    if userId in db.carts && HasItem(db.carts[userId], variantId) {
      if CartsDistinct(db.carts) {
        SetQuantityKeepsDistinct(db.carts[userId], variantId, quantity);
      }
      db.carts := db.carts[userId := SetItemQuantity(db.carts[userId], variantId, quantity)];
      r := Ok(Project(db.carts[userId]));
    } else if userId !in db.carts {
      r := Err(CartNotFound);
    } else {
      r := Err(ItemNotFound);
    }
  }

  /**
   * removeItemFromCart: the new lines are computed from the cart as the search
   * index holds it (`index`), then written to the store's cart.
   */
  method RemoveItemFromCart(db: Db, index: map<Id, seq<CartItem>>, userId: Id, variantId: Id)
    returns (r: Result<seq<ItemView>, CartError>)
    modifies db
    ensures db.variants == old(db.variants) && db.coupons == old(db.coupons) && db.users == old(db.users)
    ensures db.orders == old(db.orders) && db.reviews == old(db.reviews)
    ensures userId !in index ==> r == Err(CartNotFound) && db.carts == old(db.carts)
    ensures userId in index && userId !in old(db.carts) ==> r == Err(UpdateFailed) && db.carts == old(db.carts)
    ensures userId in index && userId in old(db.carts) ==>
      db.carts == old(db.carts)[userId := RemoveItem(index[userId], variantId)]
      && r == Ok(Project(db.carts[userId]))
    ensures CartsDistinct(old(db.carts)) && CartsDistinct(index) ==> CartsDistinct(db.carts)
  {
    if userId !in index {
      return Err(CartNotFound);
    }
    var updated := RemoveItem(index[userId], variantId);
    if userId !in db.carts {
      return Err(UpdateFailed);
    }
    if CartsDistinct(index) {
      RemoveItemKeepsDistinct(index[userId], variantId);
    }
    db.carts := db.carts[userId := updated];
    r := Ok(Project(updated));
  }

  /** clearCart: delete the user's cart. */
  method ClearCart(db: Db, userId: Id) returns (r: Result<(), CartError>)
    modifies db
    ensures db.variants == old(db.variants) && db.coupons == old(db.coupons) && db.users == old(db.users)
    ensures db.orders == old(db.orders) && db.reviews == old(db.reviews)
    ensures userId !in old(db.carts) ==> r == Err(CartNotFound) && db.carts == old(db.carts)
    ensures userId in old(db.carts) ==> r == Ok(()) && db.carts == old(db.carts) - {userId}
  {
    if userId !in db.carts {
      return Err(CartNotFound);
    }
    db.carts := db.carts - {userId};
    r := Ok(());
  }
}
