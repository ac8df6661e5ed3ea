/**
 * createOrder and updateOrderStatus of src/services/order.service.ts.
 *
 * createOrder runs a fixed sequence of checks against the search index's
 * view of carts, variants and coupons (`IndexView`), then a fixed sequence
 * of writes to the store: sign up a guest, create the order, decrement stock
 * per line (deleting the order again on the first failure), delete the cart,
 * rewrite the loyalty balance and bump the coupon.
 */
module OrderService {
  import opened Wrappers
  import opened Constants
  import opened Models
  import opened OrderPricing
  import CartService

  datatype OrderError =
    | CartEmpty                          // 'Cart is empty'
    | ProductsNotFound                   // 'Products not found'
    | ProductUnavailable(variant_id: Id) // 'Product with ID … not found or not available'
    | InsufficientStock(variant_name: string) // 'Product … does not have enough stock'
    | ProductInfoChanged                 // 'Product information has changed. …'
    | InvalidCoupon                      // 'Invalid coupon code'
    | CouponLimitReached                 // 'Coupon usage limit has been reached'
    | DiscountExceedsTotal               // coupon larger than the total
    | NameAndEmailRequired               // 'User name and email are required'
    | InvalidPaymentMethod               // 'Invalid payment method'
    | CouponNotFound                     // 'Coupon not found'
    | InvalidStatus                      // 'Invalid status'
    | OrderNotFound                      // 'Order not found'

  /** The arguments of createOrder; `using_loyalty_points` defaults to true when absent. */
  datatype OrderRequest = OrderRequest(
    user_id: Option<Id>,
    user_name: Option<string>,
    email: Option<string>,
    coupon_code: Option<string>,
    address: string,
    items: Option<seq<CartItem>>,
    payment_method: string,
    using_loyalty_points: Option<bool>)

  /** The search index's carts, product variants and coupons, as createOrder reads them. */
  datatype IndexView = IndexView(
    carts: map<Id, seq<CartItem>>,
    variants: map<Id, Variant>,
    coupons: map<string, Coupon>)

  /** JavaScript truthiness of an optional string. */
  predicate Given(s: Option<string>) {
    s.Some? && s.value != ""
  }

  // ---------------------------------------------------------------- checks

  /** The lines to order: the user's indexed cart, or else the inline items. */
  function ResolveItems(view: IndexView, req: OrderRequest): Result<seq<CartItem>, OrderError> {
    if req.user_id.Some? then
      if req.user_id.value in view.carts then Ok(view.carts[req.user_id.value]) else Err(CartEmpty)
    else Ok(req.items.GetOr([]))
  }

  /** No line names an active variant of the snapshot (also true of no lines at all). */
  predicate NoneListed(snapshot: map<Id, Variant>, items: seq<CartItem>) {
    forall i :: 0 <= i < |items| ==> !ActiveIn(snapshot, items[i].product_variant_id)
  }

  /** What stops the validation loop at this line, if anything. */
  function ItemIssue(snapshot: map<Id, Variant>, item: CartItem): (r: Option<OrderError>)
    ensures r.Some? ==> r.value.ProductUnavailable? || r.value.InsufficientStock?
    ensures r == Some(ProductUnavailable(item.product_variant_id)) <==> !ActiveIn(snapshot, item.product_variant_id)
    ensures r == Some(InsufficientStock(item.product_variant_name)) <==>
      ActiveIn(snapshot, item.product_variant_id) && item.quantity > snapshot[item.product_variant_id].quantity
    ensures r.None? <==> ActiveIn(snapshot, item.product_variant_id) && item.quantity <= snapshot[item.product_variant_id].quantity
  {
    if !ActiveIn(snapshot, item.product_variant_id) then Some(ProductUnavailable(item.product_variant_id))
    else if item.quantity > snapshot[item.product_variant_id].quantity then Some(InsufficientStock(item.product_variant_name))
    else None
  }

  /** The issue of the first line that has one. */
  function FirstIssue(snapshot: map<Id, Variant>, items: seq<CartItem>): (r: Option<OrderError>)
    ensures r.Some? ==> r.value.ProductUnavailable? || r.value.InsufficientStock?
  {
    if items == [] then None
    else
      var earlier := FirstIssue(snapshot, items[..|items| - 1]);
      if earlier.Some? then earlier else ItemIssue(snapshot, items[|items| - 1])
  }

  lemma {:induction false} FirstIssueSticks(snapshot: map<Id, Variant>, a: seq<CartItem>, b: seq<CartItem>)
    requires FirstIssue(snapshot, a).Some?
    ensures FirstIssue(snapshot, a + b) == FirstIssue(snapshot, a)
  {
    if b == [] {
      assert a + b == a;
    } else {
      assert (a + b)[..|a + b| - 1] == a + b[..|b| - 1];
      FirstIssueSticks(snapshot, a, b[..|b| - 1]);
    }
  }

  /**
   * The loop stops at the first line whose variant is missing, inactive or
   * short of stock, and passes exactly when no line is.
   */
  lemma {:induction false} FirstIssueIsFirst(snapshot: map<Id, Variant>, items: seq<CartItem>)
    ensures FirstIssue(snapshot, items).None? <==> forall i :: 0 <= i < |items| ==> ItemIssue(snapshot, items[i]).None?
    ensures FirstIssue(snapshot, items).Some? ==>
      exists k :: (0 <= k < |items|
        && FirstIssue(snapshot, items) == ItemIssue(snapshot, items[k])
        && forall j :: 0 <= j < k ==> ItemIssue(snapshot, items[j]).None?)
  {
    if items != [] {
      var init := items[..|items| - 1];
      FirstIssueIsFirst(snapshot, init);
      assert forall i :: 0 <= i < |init| ==> init[i] == items[i];
    }
  }

  /** The cached price or discount differs from the live variant's. */
  predicate Stale(snapshot: map<Id, Variant>, item: CartItem) {
    ActiveIn(snapshot, item.product_variant_id)
    && (item.unit_price != snapshot[item.product_variant_id].price
        || item.discount != snapshot[item.product_variant_id].discount)
  }

  predicate AnyStale(snapshot: map<Id, Variant>, items: seq<CartItem>) {
    exists i :: 0 <= i < |items| && Stale(snapshot, items[i])
  }

  /** The line after the loop body: live price and discount if stale, live original price always. */
  function Refresh(snapshot: map<Id, Variant>, item: CartItem): (r: CartItem)
    ensures ActiveIn(snapshot, item.product_variant_id) ==>
      var v := snapshot[item.product_variant_id];
      r.unit_price == v.price && r.discount == v.discount && r.original_price == v.original_price
    ensures r.(unit_price := item.unit_price, discount := item.discount, original_price := item.original_price) == item
    ensures !ActiveIn(snapshot, item.product_variant_id) ==> r == item
  {
    if !ActiveIn(snapshot, item.product_variant_id) then item
    else
      var v := snapshot[item.product_variant_id];
      var repriced := if Stale(snapshot, item) then item.(unit_price := v.price, discount := v.discount) else item;
      repriced.(original_price := v.original_price)
  }

  function RefreshAll(snapshot: map<Id, Variant>, items: seq<CartItem>): (r: seq<CartItem>)
    ensures |r| == |items|
    ensures forall i :: 0 <= i < |items| ==> r[i] == Refresh(snapshot, items[i])
  {
    seq(|items|, i requires 0 <= i < |items| => Refresh(snapshot, items[i]))
  }

  /**
   * The validation loop. It corrects each line in place, notes whether any
   * price or discount was stale, and stops at the first line with an issue.
   */
  method ValidateItems(items: seq<CartItem>, snapshot: map<Id, Variant>)
    returns (checked: seq<CartItem>, changed: bool, issue: Option<OrderError>)
    ensures issue == FirstIssue(snapshot, items)
    ensures issue.None? ==> checked == RefreshAll(snapshot, items) && changed == AnyStale(snapshot, items)
  {
    checked, changed, issue := items, false, None;
    var i := 0;
    while i < |items|
      invariant 0 <= i <= |items| && |checked| == |items|
      invariant FirstIssue(snapshot, items[..i]).None?
      invariant forall j :: 0 <= j < i ==> checked[j] == Refresh(snapshot, items[j])
      invariant changed == exists j :: 0 <= j < i && Stale(snapshot, items[j])
    {
      var item := items[i];
      assert items[..i + 1][..i] == items[..i];
      assert items == items[..i + 1] + items[i + 1..];
      if !ActiveIn(snapshot, item.product_variant_id) {
        issue := Some(ProductUnavailable(item.product_variant_id));
        FirstIssueSticks(snapshot, items[..i + 1], items[i + 1..]);
        return;
      }
      var v := snapshot[item.product_variant_id];
      var current := item;
      if item.unit_price != v.price || item.discount != v.discount {
        current := current.(unit_price := v.price, discount := v.discount);
        changed := true;
      }
      current := current.(original_price := v.original_price);
      checked := checked[i := current];
      if item.quantity > v.quantity {
        issue := Some(InsufficientStock(item.product_variant_name));
        FirstIssueSticks(snapshot, items[..i + 1], items[i + 1..]);
        return;
      }
      i := i + 1;
    }
    assert items[..i] == items;
  }

  /** The coupon to apply, looked up among the active coupons of the index. */
  function CheckCoupon(coupons: map<string, Coupon>, code: Option<string>): (r: Result<Option<Coupon>, OrderError>)
    ensures !Given(code) ==> r == Ok(None)
    ensures Given(code) ==>
      && (r == Err(InvalidCoupon) <==> !(code.value in coupons && coupons[code.value].is_active))
      && (r == Err(CouponLimitReached) <==>
            code.value in coupons && coupons[code.value].is_active
            && coupons[code.value].usage_count >= coupons[code.value].usage_limit)
      && (r.Ok? ==>
            r.value == Some(coupons[code.value])
            && coupons[code.value].usage_count < coupons[code.value].usage_limit)
  {
    if !Given(code) then Ok(None)
    else if !(code.value in coupons && coupons[code.value].is_active) then Err(InvalidCoupon)
    else if coupons[code.value].usage_count >= coupons[code.value].usage_limit then Err(CouponLimitReached)
    else Ok(Some(coupons[code.value]))
  }

  /** The flat coupon deduction (`discount_amount`), 0 without a coupon. */
  function CouponAmount(coupon: Option<Coupon>): (a: real)
    ensures coupon.None? ==> a == 0.0
    ensures coupon.Some? ==> a == coupon.value.discount_amount
  {
    if coupon.Some? then coupon.value.discount_amount else 0.0
  }

  /** The loyalty balance read at the start: only for a signed-in user who uses points. */
  function PointsRead(users: map<Id, User>, req: OrderRequest): (p: int)
    ensures req.user_id.Some? && req.using_loyalty_points.GetOr(true) && req.user_id.value in users ==>
      p == users[req.user_id.value].loyalty_points
    ensures !(req.user_id.Some? && req.using_loyalty_points.GetOr(true) && req.user_id.value in users) ==> p == 0
  {
    if req.user_id.Some? && req.using_loyalty_points.GetOr(true) && req.user_id.value in users
    then users[req.user_id.value].loyalty_points
    else 0
  }

  /** What the checks hand on to the writes. */
  datatype Plan = Plan(items: seq<CartItem>, coupon: Option<Coupon>, quote: Quote)

  /** Every check createOrder makes before its first write, in the order it makes them. */
  function Prepare(users: map<Id, User>, view: IndexView, req: OrderRequest): Result<Plan, OrderError> {
    match ResolveItems(view, req)
    case Err(e) => Err(e)
    case Ok(items) =>
      if NoneListed(view.variants, items) then Err(ProductsNotFound)
      else if FirstIssue(view.variants, items).Some? then Err(FirstIssue(view.variants, items).value)
      else if AnyStale(view.variants, items) then Err(ProductInfoChanged)
      else match CheckCoupon(view.coupons, req.coupon_code)
        case Err(e) => Err(e)
        case Ok(coupon) =>
          match Price(RefreshAll(view.variants, items), CouponAmount(coupon), PointsRead(users, req))
          case None => Err(DiscountExceedsTotal)
          case Some(q) =>
            if req.user_id.None? && !(Given(req.user_name) && Given(req.email)) then Err(NameAndEmailRequired)
            else Ok(Plan(RefreshAll(view.variants, items), coupon, q))
  }

  /**
   * A plan that passes the checks orders at least one line, every line at the
   * live price and discount of an active variant with enough stock, and a
   * coupon that is active and under its usage limit.
   */
  lemma PassedChecks(users: map<Id, User>, view: IndexView, req: OrderRequest)
    requires Prepare(users, view, req).Ok?
    ensures var plan := Prepare(users, view, req).value;
      && |plan.items| > 0
      && (forall i :: 0 <= i < |plan.items| ==>
            var id := plan.items[i].product_variant_id;
            ActiveIn(view.variants, id)
            && plan.items[i].unit_price == view.variants[id].price
            && plan.items[i].discount == view.variants[id].discount
            && plan.items[i].quantity <= view.variants[id].quantity)
      && (Given(req.coupon_code) ==>
            plan.coupon.Some?
            && plan.coupon.value.is_active && plan.coupon.value.usage_count < plan.coupon.value.usage_limit)
      && plan.quote.gross_total >= CouponAmount(plan.coupon)
  {
    var items := ResolveItems(view, req).value;
    FirstIssueIsFirst(view.variants, items);
    var plan := Prepare(users, view, req).value;
    forall i | 0 <= i < |plan.items|
      ensures ActiveIn(view.variants, plan.items[i].product_variant_id)
      ensures plan.items[i].unit_price == view.variants[plan.items[i].product_variant_id].price
      ensures plan.items[i].discount == view.variants[plan.items[i].product_variant_id].discount
      ensures plan.items[i].quantity <= view.variants[plan.items[i].product_variant_id].quantity
    {
      assert ItemIssue(view.variants, items[i]).None?;
      assert !Stale(view.variants, items[i]);
    }
  }

  /**
   * A missing, inactive or short line aborts with that line's error even when
   * an earlier line was stale: the price-change abort comes only after the loop.
   */
  lemma IssueBeatsPriceChange(users: map<Id, User>, view: IndexView, req: OrderRequest, k: nat)
    requires ResolveItems(view, req).Ok?
    requires var items := ResolveItems(view, req).value;
      k < |items| && !NoneListed(view.variants, items) && ItemIssue(view.variants, items[k]).Some?
      && forall j :: 0 <= j < k ==> ItemIssue(view.variants, items[j]).None?
    ensures Prepare(users, view, req) == Err(ItemIssue(view.variants, ResolveItems(view, req).value[k]).value)
  {
    var items := ResolveItems(view, req).value;
    FirstIssueIsFirst(view.variants, items);
    var e := FirstIssue(view.variants, items);
    var k' :| 0 <= k' < |items| && e == ItemIssue(view.variants, items[k'])
      && forall j :: 0 <= j < k' ==> ItemIssue(view.variants, items[j]).None?;
    assert k' == k;
  }

  /** With every line available, a stale price or discount always aborts with the price-change error. */
  lemma StaleLineAborts(users: map<Id, User>, view: IndexView, req: OrderRequest)
    requires ResolveItems(view, req).Ok?
    requires var items := ResolveItems(view, req).value;
      (forall i :: 0 <= i < |items| ==> ItemIssue(view.variants, items[i]).None?) && AnyStale(view.variants, items)
    ensures Prepare(users, view, req) == Err(ProductInfoChanged)
  {
    var items := ResolveItems(view, req).value;
    FirstIssueIsFirst(view.variants, items);
    var i :| 0 <= i < |items| && Stale(view.variants, items[i]);
    assert !NoneListed(view.variants, items);
  }

  /** An existing but empty cart, or no inline items, fails with 'Products not found'. */
  lemma NoLinesNotFound(users: map<Id, User>, view: IndexView, req: OrderRequest)
    requires ResolveItems(view, req) == Ok([])
    ensures Prepare(users, view, req) == Err(ProductsNotFound)
  {
  }

  /** The cart store after the price-change abort: the signed-in user's cart gets the corrected lines. */
  function CorrectedCarts(carts: map<Id, seq<CartItem>>, view: IndexView, req: OrderRequest): (r: map<Id, seq<CartItem>>)
    ensures r.Keys == carts.Keys
    ensures forall u :: u in carts && (req.user_id.None? || u != req.user_id.value) ==> r[u] == carts[u]
    ensures req.user_id.Some? && req.user_id.value in carts && req.user_id.value in view.carts ==>
      r[req.user_id.value] == RefreshAll(view.variants, view.carts[req.user_id.value])
  {
    if req.user_id.Some? && req.user_id.value in carts && req.user_id.value in view.carts
    then carts[req.user_id.value := RefreshAll(view.variants, view.carts[req.user_id.value])]
    else carts
  }

  // ----------------------------------------------------------------- buyer

  /** The account a guest checkout signs up. Signup itself is not part of this model. */
  function NewAccount(req: OrderRequest): (u: User)
    ensures u.email == req.email.GetOr("") && u.full_name == req.user_name.GetOr("")
    ensures u.loyalty_points == 0
  {
    User(req.email.GetOr(""), req.user_name.GetOr(""), 0)
  }

  /**
   * Who the order is for: the signed-in user; else a user with the guest's
   * email, if there is one; else the newly signed-up account.
   */
  predicate IsBuyer(users: map<Id, User>, req: OrderRequest, newUserId: Id, buyer: Id) {
    if req.user_id.Some? then buyer == req.user_id.value
    else if exists u :: u in users && users[u].email == req.email.GetOr("")
    then buyer in users && users[buyer].email == req.email.GetOr("")
    else buyer == newUserId
  }

  /** The users after a guest checkout: a new account only for a buyer not yet registered. */
  function SignedUp(users: map<Id, User>, req: OrderRequest, buyer: Id): map<Id, User> {
    if req.user_id.None? && buyer !in users then users[buyer := NewAccount(req)] else users
  }

  /** Signup adds at most the buyer's account, with no points, and leaves every existing account as it was. */
  lemma SignUpKeepsAccounts(users: map<Id, User>, req: OrderRequest, buyer: Id)
    ensures var r := SignedUp(users, req, buyer);
      && r.Keys == users.Keys + (if req.user_id.None? && buyer !in users then {buyer} else {})
      && (forall u :: u in users ==> r[u] == users[u])
      && (buyer in r && buyer !in users ==> r[buyer] == NewAccount(req) && r[buyer].loyalty_points == 0)
  {
  }

  method ResolveBuyer(db: Db, req: OrderRequest, newUserId: Id) returns (buyer: Id, isNew: bool)
    requires newUserId !in db.users
    modifies db
    ensures db.carts == old(db.carts) && db.variants == old(db.variants) && db.coupons == old(db.coupons)
    ensures db.orders == old(db.orders) && db.reviews == old(db.reviews)
    ensures IsBuyer(old(db.users), req, newUserId, buyer)
    ensures db.users == SignedUp(old(db.users), req, buyer)
    ensures isNew <==> req.user_id.None? && buyer !in old(db.users)
  {
    if req.user_id.Some? {
      return req.user_id.value, false;
    }
    var email := req.email.GetOr("");
    if exists u :: u in db.users && db.users[u].email == email {
      var u :| u in db.users && db.users[u].email == email;
      return u, false;
    }
    db.users := db.users[newUserId := NewAccount(req)];
    buyer, isNew := newUserId, true;
  }

  // ----------------------------------------------------------------- stock

  datatype Drained = Drained(stock: map<Id, Variant>, failed_at: Option<nat>)

  /** The conditional decrement's filter: the variant exists with at least that much stock. */
  predicate CanTake(stock: map<Id, Variant>, item: CartItem) {
    item.product_variant_id in stock && stock[item.product_variant_id].quantity >= item.quantity
  }

  function Take(stock: map<Id, Variant>, item: CartItem): map<Id, Variant>
    requires CanTake(stock, item)
  {
    var v := stock[item.product_variant_id];
    stock[item.product_variant_id := v.(quantity := v.quantity - item.quantity)]
  }

  function Shift(d: Drained, k: nat): Drained {
    Drained(d.stock, if d.failed_at.Some? then Some(d.failed_at.value + k) else None)
  }

  /** The decrements applied one line at a time, up to the first that fails. */
  function Drain(stock: map<Id, Variant>, items: seq<CartItem>): Drained
    decreases |items|
  {
    if items == [] then Drained(stock, None)
    else if !CanTake(stock, items[0]) then Drained(stock, Some(0))
    else Shift(Drain(Take(stock, items[0]), items[1..]), 1)
  }

  /** Total quantity ordered of a variant over all lines. */
  function Ordered(items: seq<CartItem>, id: Id): int {
    if items == [] then 0
    else (if items[0].product_variant_id == id then items[0].quantity else 0) + Ordered(items[1..], id)
  }

  predicate NonNegativeStock(stock: map<Id, Variant>) {
    forall id :: id in stock ==> stock[id].quantity >= 0
  }

  /** Conditional decrements never make stock negative. */
  lemma {:induction false} DrainKeepsStockNonNegative(stock: map<Id, Variant>, items: seq<CartItem>)
    requires NonNegativeStock(stock)
    ensures NonNegativeStock(Drain(stock, items).stock)
    decreases |items|
  {
    if items != [] && CanTake(stock, items[0]) {
      DrainKeepsStockNonNegative(Take(stock, items[0]), items[1..]);
    }
  }

  /**
   * When every decrement applies, each variant's stock drops by exactly the
   * quantity ordered of it, and nothing else about any variant changes.
   */
  lemma {:induction false} DrainSubtractsOrdered(stock: map<Id, Variant>, items: seq<CartItem>)
    requires Drain(stock, items).failed_at.None?
    ensures Drain(stock, items).stock.Keys == stock.Keys
    ensures forall id :: id in stock ==>
      Drain(stock, items).stock[id] == stock[id].(quantity := stock[id].quantity - Ordered(items, id))
    decreases |items|
  {
    if items != [] {
      var next := Take(stock, items[0]);
      DrainSubtractsOrdered(next, items[1..]);
    }
  }

  /**
   * When a decrement fails, the decrements of the earlier lines stay applied:
   * the stock is what the lines before the failing one left.
   */
  lemma {:induction false} DrainFailureKeepsEarlier(stock: map<Id, Variant>, items: seq<CartItem>)
    requires Drain(stock, items).failed_at.Some?
    ensures var k := Drain(stock, items).failed_at.value;
      && k < |items|
      && Drain(stock, items[..k]) == Drained(Drain(stock, items).stock, None)
      && !CanTake(Drain(stock, items).stock, items[k])
    decreases |items|
  {
    if CanTake(stock, items[0]) {
      var next := Take(stock, items[0]);
      DrainFailureKeepsEarlier(next, items[1..]);
      var k := Drain(stock, items).failed_at.value;
      assert items[..k][1..] == items[1..][..k - 1];
      assert items[1..][k - 1] == items[k];
    } else {
      assert items[..0] == [];
    }
  }

  /** The per-line decrement loop, stopping at the first line whose decrement does not apply. */
  method DecrementStock(db: Db, items: seq<CartItem>) returns (failedAt: Option<nat>)
    modifies db
    ensures Drained(db.variants, failedAt) == Drain(old(db.variants), items)
    ensures db.carts == old(db.carts) && db.coupons == old(db.coupons) && db.users == old(db.users)
    ensures db.orders == old(db.orders) && db.reviews == old(db.reviews)
  {
    var i := 0;
    while i < |items|
      invariant 0 <= i <= |items|
      invariant Drain(old(db.variants), items) == Shift(Drain(db.variants, items[i..]), i)
      invariant db.carts == old(db.carts) && db.coupons == old(db.coupons) && db.users == old(db.users)
      invariant db.orders == old(db.orders) && db.reviews == old(db.reviews)
    {
      var item := items[i];
      assert items[i..][0] == item && items[i..][1..] == items[i + 1..];
      if !(item.product_variant_id in db.variants && db.variants[item.product_variant_id].quantity >= item.quantity) {
        return Some(i);
      }
      var v := db.variants[item.product_variant_id];
      db.variants := db.variants[item.product_variant_id := v.(quantity := v.quantity - item.quantity)];
      i := i + 1;
    }
    assert items[i..] == [];
    failedAt := None;
  }

  // ---------------------------------------------------------------- writes

  /** BANK_TRANSFER is taken as paid up front; CASH is pending. */
  function InitialPaymentStatus(m: PaymentMethod): (s: PaymentStatus)
    ensures s.PAID? <==> m.BANK_TRANSFER?
    ensures s.PENDING? <==> m.CASH?
  {
    if m == BANK_TRANSFER then PaymentStatus.PAID else PaymentStatus.PENDING
  }

  /** The order document createOrder writes: status PENDING, no tracking yet. */
  function NewOrder(req: OrderRequest, buyer: Id, plan: Plan, m: PaymentMethod): (o: Order)
    ensures o.user_id == buyer && o.items == plan.items && o.total_amount == plan.quote.total_amount
    ensures o.status == OrderStatus.PENDING && o.order_tracking == []
    ensures o.payment_method == m && o.payment_status == InitialPaymentStatus(m)
    ensures o.user_name == req.user_name && o.email == req.email
    ensures o.coupon_code == req.coupon_code && o.address == req.address
    ensures o.discount_amount == plan.quote.coupon_discount
    ensures o.loyalty_points_used == plan.quote.loyalty_points_used
    ensures o.loyalty_points_earned == plan.quote.loyalty_points_earned
  {
    Order(buyer, req.user_name, req.email, req.coupon_code, req.address, plan.items,
          plan.quote.total_amount, plan.quote.coupon_discount,
          plan.quote.loyalty_points_used, plan.quote.loyalty_points_earned,
          OrderStatus.PENDING, m, InitialPaymentStatus(m), [])
  }

  /** What createOrder returns: the order under its id, its lines without `original_price`. */
  datatype OrderResponse = OrderResponse(
    id: Id,
    user_id: Id,
    user_name: Option<string>,
    email: Option<string>,
    coupon_code: Option<string>,
    address: string,
    items: seq<CartService.ItemView>,
    total_amount: int,
    discount_amount: real,
    loyalty_points_used: int,
    loyalty_points_earned: int,
    status: OrderStatus,
    payment_method: PaymentMethod,
    payment_status: PaymentStatus,
    order_tracking: seq<Tracking>)

  /** The stored order as the response shows it: every field, with each line projected. */
  function Respond(id: Id, o: Order): (r: OrderResponse)
    ensures r.id == id && |r.items| == |o.items|
    ensures forall i :: 0 <= i < |o.items| ==> r.items[i] == CartService.ProjectItem(o.items[i])
    ensures r.(items := []) == OrderResponse(id, o.user_id, o.user_name, o.email, o.coupon_code, o.address, [],
      o.total_amount, o.discount_amount, o.loyalty_points_used, o.loyalty_points_earned,
      o.status, o.payment_method, o.payment_status, o.order_tracking)
  {
    OrderResponse(id, o.user_id, o.user_name, o.email, o.coupon_code, o.address, CartService.Project(o.items),
      o.total_amount, o.discount_amount, o.loyalty_points_used, o.loyalty_points_earned,
      o.status, o.payment_method, o.payment_status, o.order_tracking)
  }

  /**
   * The user store after the loyalty rewrite as the code performs it:
   * `$set` of the remaining points plus the points earned, where the
   * remaining points are computed from `read`, the balance read before the
   * checks (see PointsRead), not from the buyer's stored balance.
   */
  function Credited(users: map<Id, User>, buyer: Id, read: int, q: Quote): (r: map<Id, User>)
    ensures r.Keys == users.Keys
    ensures buyer in users ==>
      r[buyer] == users[buyer].(loyalty_points := Rewrite(read, q.loyalty_points_used, q.loyalty_points_earned))
    ensures forall u :: u in users && u != buyer ==> r[u] == users[u]
  {
    if buyer in users
    then users[buyer := users[buyer].(loyalty_points :=
           Rewrite(read, q.loyalty_points_used, q.loyalty_points_earned))]
    else users
  }

  /**
   * As written, the rewrite loses the stored balance of a buyer whose points
   * were not read: a signed-in user who opted out of redeeming, or a guest
   * whose e-mail matched an existing account. They end with the points earned
   * less the points charged, where the corrected rewrite (Rewrite from the stored balance) keeps
   * the stored balance.
   */
  lemma RewriteLosesUnreadBalance(before: map<Id, User>, users: map<Id, User>, req: OrderRequest, buyer: Id, q: Quote)
    requires buyer in users
    requires req.user_id.None? || !req.using_loyalty_points.GetOr(true)
    ensures var after := Credited(users, buyer, PointsRead(before, req), q)[buyer].loyalty_points;
      var stored := users[buyer].loyalty_points;
      && after == q.loyalty_points_earned - q.loyalty_points_used
      && (stored != 0 <==> after != Rewrite(stored, q.loyalty_points_used, q.loyalty_points_earned))
  {
    assert PointsRead(before, req) == 0;
  }

  /** `$inc: {usage_count: 1}` and `$push: {orders_used: orderId}`. */
  function Redeem(coupons: map<string, Coupon>, code: string, orderId: Id): (r: map<string, Coupon>)
    requires code in coupons
    ensures r.Keys == coupons.Keys
    ensures r[code].usage_count == coupons[code].usage_count + 1
    ensures r[code].orders_used == coupons[code].orders_used + [orderId]
    ensures forall c :: c in coupons && c != code ==> r[c] == coupons[c]
  {
    var c := coupons[code];
    coupons[code := c.(usage_count := c.usage_count + 1, orders_used := c.orders_used + [orderId])]
  }

  /** A coupon below its limit when checked is at most at its limit after one redemption. */
  lemma RedeemKeepsLimit(coupons: map<string, Coupon>, code: string, orderId: Id)
    requires code in coupons && coupons[code].usage_count < coupons[code].usage_limit
    ensures Redeem(coupons, code, orderId)[code].usage_count <= Redeem(coupons, code, orderId)[code].usage_limit
  {
  }

  /**
   * The checks of createOrder, in its order. The only write is the price-change
   * abort's: the signed-in user's stored cart gets the corrected lines.
   */
  method RunChecks(db: Db, view: IndexView, req: OrderRequest) returns (p: Result<Plan, OrderError>)
    modifies db
    ensures p == Prepare(old(db.users), view, req)
    ensures db.carts == (if p == Err(ProductInfoChanged) then CorrectedCarts(old(db.carts), view, req) else old(db.carts))
    ensures db.variants == old(db.variants) && db.coupons == old(db.coupons) && db.users == old(db.users)
    ensures db.orders == old(db.orders) && db.reviews == old(db.reviews)
  {
    // the lines: the user's indexed cart, or the inline items
    var items: seq<CartItem>;
    if req.user_id.Some? {
      if req.user_id.value !in view.carts {
        return Err(CartEmpty);
      }
      items := view.carts[req.user_id.value];
    } else {
      items := req.items.GetOr([]);
    }
    assert ResolveItems(view, req) == Ok(items);
    if NoneListed(view.variants, items) {
      return Err(ProductsNotFound);
    }
    var checked, changed, issue := ValidateItems(items, view.variants);
    if issue.Some? {
      return Err(issue.value);
    }
    if changed {
      if req.user_id.Some? && req.user_id.value in db.carts {
        db.carts := db.carts[req.user_id.value := checked];
      }
      return Err(ProductInfoChanged);
    }
    var coupon: Option<Coupon> := None;
    if Given(req.coupon_code) {
      var code := req.coupon_code.value;
      if !(code in view.coupons && view.coupons[code].is_active) {
        return Err(InvalidCoupon);
      }
      var c := view.coupons[code];
      if c.usage_count >= c.usage_limit {
        return Err(CouponLimitReached);
      }
      coupon := Some(c);
    }
    assert CheckCoupon(view.coupons, req.coupon_code) == Ok(coupon);
    var quote := Price(checked, CouponAmount(coupon), PointsRead(db.users, req));
    if quote.None? {
      return Err(DiscountExceedsTotal);
    }
    if req.user_id.None? && !(Given(req.user_name) && Given(req.email)) {
      return Err(NameAndEmailRequired);
    }
    p := Ok(Plan(checked, coupon, quote.value));
  }

  /**
   * The finishing writes of createOrder: delete the signed-in user's cart,
   * rewrite the buyer's loyalty balance from the points read at the start,
   * and redeem the coupon, which fails with 'Coupon not found' once the
   * store no longer holds it.
   */
  method Finish(db: Db, req: OrderRequest, orderId: Id, buyer: Id, isNew: bool, pointsRead: int, q: Quote)
    returns (r: Result<(), OrderError>)
    modifies db
    ensures db.variants == old(db.variants) && db.orders == old(db.orders) && db.reviews == old(db.reviews)
    ensures db.carts == (if req.user_id.Some? && !isNew then old(db.carts) - {buyer} else old(db.carts))
    ensures db.users == Credited(old(db.users), buyer, pointsRead, q)
    ensures !Given(req.coupon_code) ==> r == Ok(()) && db.coupons == old(db.coupons)
    ensures Given(req.coupon_code) && req.coupon_code.value in old(db.coupons) ==>
      r == Ok(()) && db.coupons == Redeem(old(db.coupons), req.coupon_code.value, orderId)
    ensures Given(req.coupon_code) && req.coupon_code.value !in old(db.coupons) ==>
      r == Err(CouponNotFound) && db.coupons == old(db.coupons)
  {
    if req.user_id.Some? && !isNew {
      db.carts := db.carts - {buyer};
    }
    if buyer in db.users {
      var u := db.users[buyer];
      db.users := db.users[buyer := u.(loyalty_points :=
        Rewrite(pointsRead, q.loyalty_points_used, q.loyalty_points_earned))];
    }
    r := Ok(());
    if Given(req.coupon_code) {
      var code := req.coupon_code.value;
      if code !in db.coupons {
        return Err(CouponNotFound);
      }
      var c := db.coupons[code];
      db.coupons := db.coupons[code := c.(usage_count := c.usage_count + 1, orders_used := c.orders_used + [orderId])];
    }
  }

  /**
   * The writes of createOrder once the checks have passed. `orderId` and
   * `newUserId` are the identifiers the store assigns to the order and, for a
   * guest checkout, to the signed-up account.
   */
  method Commit(db: Db, req: OrderRequest, plan: Plan, orderId: Id, newUserId: Id)
    returns (r: Result<OrderResponse, OrderError>, ghost buyer: Id)
    requires orderId !in db.orders && newUserId !in db.users
    modifies db
    ensures db.reviews == old(db.reviews)
    ensures IsBuyer(old(db.users), req, newUserId, buyer)
    // the payment method is parsed only after a guest is signed up
    ensures ParsePaymentMethod(req.payment_method).None? ==>
      && r == Err(InvalidPaymentMethod)
      && db.users == SignedUp(old(db.users), req, buyer)
      && db.carts == old(db.carts) && db.variants == old(db.variants)
      && db.coupons == old(db.coupons) && db.orders == old(db.orders)
    // a decrement that does not apply deletes the order again; earlier decrements stay
    ensures ParsePaymentMethod(req.payment_method).Some? ==>
      var d := Drain(old(db.variants), plan.items);
      d.failed_at.Some? ==>
        && d.failed_at.value < |plan.items|
        && r == Err(InsufficientStock(plan.items[d.failed_at.value].product_variant_name))
        && db.variants == d.stock
        && db.orders == old(db.orders)
        && db.users == SignedUp(old(db.users), req, buyer)
        && db.carts == old(db.carts) && db.coupons == old(db.coupons)
    // every decrement applied: cart, loyalty balance and coupon are finalised
    ensures ParsePaymentMethod(req.payment_method).Some? ==>
      var m := ParsePaymentMethod(req.payment_method).value;
      var d := Drain(old(db.variants), plan.items);
      d.failed_at.None? ==>
        && db.variants == d.stock
        && db.orders == old(db.orders)[orderId := NewOrder(req, buyer, plan, m)]
        && db.carts == (if req.user_id.Some? then old(db.carts) - {buyer} else old(db.carts))
        && db.users == Credited(SignedUp(old(db.users), req, buyer), buyer, PointsRead(old(db.users), req), plan.quote)
        && (if !Given(req.coupon_code) then r == Ok(Respond(orderId, NewOrder(req, buyer, plan, m))) && db.coupons == old(db.coupons)
            else if req.coupon_code.value in old(db.coupons)
            then r == Ok(Respond(orderId, NewOrder(req, buyer, plan, m)))
                 && db.coupons == Redeem(old(db.coupons), req.coupon_code.value, orderId)
            else r == Err(CouponNotFound) && db.coupons == old(db.coupons))
  {
    // guest checkout: reuse the account with that email, or sign one up
    // the balance read before the checks, for a signed-in user who redeems
    var pointsRead := PointsRead(db.users, req);
    var uid, isNew := ResolveBuyer(db, req, newUserId);
    buyer := uid;
    var paymentMethod := ParsePaymentMethod(req.payment_method);
    if paymentMethod.None? {
      return Err(InvalidPaymentMethod), buyer;
    }
    var order := NewOrder(req, uid, plan, paymentMethod.value);
    db.orders := db.orders[orderId := order];

    var failedAt := DecrementStock(db, plan.items);
    if failedAt.Some? {
      DrainFailureKeepsEarlier(old(db.variants), plan.items);
      db.orders := db.orders - {orderId};
      assert db.orders == old(db.orders);
      return Err(InsufficientStock(plan.items[failedAt.value].product_variant_name)), buyer;
    }

    var done := Finish(db, req, orderId, uid, isNew, pointsRead, plan.quote);
    if done.Err? {
      return Err(done.error), buyer;
    }
    r := Ok(Respond(orderId, order));
  }

  /**
   * createOrder: the checks, then the writes. `buyer` names the user the
   * order ends up belonging to.
   */
  method CreateOrder(db: Db, view: IndexView, req: OrderRequest, orderId: Id, newUserId: Id)
    returns (r: Result<OrderResponse, OrderError>, ghost buyer: Id)
    requires orderId !in db.orders && newUserId !in db.users
    modifies db
    ensures db.reviews == old(db.reviews)
    // a failed check writes nothing, except the corrected cart on a price change
    ensures var p := Prepare(old(db.users), view, req);
      p.Err? ==>
        && r == Err(p.error)
        && db.variants == old(db.variants) && db.coupons == old(db.coupons)
        && db.users == old(db.users) && db.orders == old(db.orders)
        && db.carts == (if p.error == ProductInfoChanged then CorrectedCarts(old(db.carts), view, req) else old(db.carts))
    // past the checks, the buyer is resolved and a guest may have been signed up
    ensures var p := Prepare(old(db.users), view, req);
      p.Ok? ==> IsBuyer(old(db.users), req, newUserId, buyer)
    ensures var p := Prepare(old(db.users), view, req);
      p.Ok? && ParsePaymentMethod(req.payment_method).None? ==>
        && r == Err(InvalidPaymentMethod)
        && db.users == SignedUp(old(db.users), req, buyer)
        && db.carts == old(db.carts) && db.variants == old(db.variants)
        && db.coupons == old(db.coupons) && db.orders == old(db.orders)
    ensures var p := Prepare(old(db.users), view, req);
      p.Ok? && ParsePaymentMethod(req.payment_method).Some? ==>
        var d := Drain(old(db.variants), p.value.items);
        d.failed_at.Some? ==>
          && d.failed_at.value < |p.value.items|
          && r == Err(InsufficientStock(p.value.items[d.failed_at.value].product_variant_name))
          && db.variants == d.stock
          && db.orders == old(db.orders)
          && db.users == SignedUp(old(db.users), req, buyer)
          && db.carts == old(db.carts) && db.coupons == old(db.coupons)
    ensures var p := Prepare(old(db.users), view, req);
      p.Ok? && ParsePaymentMethod(req.payment_method).Some? ==>
        var m := ParsePaymentMethod(req.payment_method).value;
        var d := Drain(old(db.variants), p.value.items);
        d.failed_at.None? ==>
          && db.variants == d.stock
          && db.orders == old(db.orders)[orderId := NewOrder(req, buyer, p.value, m)]
          && db.carts == (if req.user_id.Some? then old(db.carts) - {buyer} else old(db.carts))
          && db.users == Credited(SignedUp(old(db.users), req, buyer), buyer, PointsRead(old(db.users), req), p.value.quote)
          && (if !Given(req.coupon_code) then r == Ok(Respond(orderId, NewOrder(req, buyer, p.value, m))) && db.coupons == old(db.coupons)
              else if req.coupon_code.value in old(db.coupons)
              then r == Ok(Respond(orderId, NewOrder(req, buyer, p.value, m)))
                   && db.coupons == Redeem(old(db.coupons), req.coupon_code.value, orderId)
              else r == Err(CouponNotFound) && db.coupons == old(db.coupons))
  {
    buyer := newUserId;
    var p := RunChecks(db, view, req);
    if p.Err? {
      return Err(p.error), buyer;
    }
    r, buyer := Commit(db, req, p.value, orderId, newUserId);
  }

  // ---------------------------------------------------------------- status

  /** One status change: any status may follow any other. */
  function Transition(o: Order, s: OrderStatus, now: int): (o': Order)
    ensures o'.status == s
    ensures o'.payment_status == PaymentStatus.PAID <==>
      o.payment_status == PaymentStatus.PAID || (o.payment_method == CASH && s == DELIVERED)
    ensures o'.payment_status != PaymentStatus.PAID ==> o'.payment_status == o.payment_status
    ensures o'.order_tracking == o.order_tracking + [Tracking(s, now)]
    ensures o'.(status := o.status, payment_status := o.payment_status, order_tracking := o.order_tracking) == o
  {
    var paid := if o.payment_method == CASH && s == DELIVERED then PaymentStatus.PAID else o.payment_status;
    o.(status := s, payment_status := paid, order_tracking := o.order_tracking + [Tracking(s, now)])
  }

  /** A run of status changes, each stamped with its time. */
  function Replay(o: Order, steps: seq<Tracking>): Order
    decreases |steps|
  {
    if steps == [] then o
    else Replay(Transition(o, steps[0].status, steps[0].updated_at), steps[1..])
  }

  /**
   * The tracking log is append-only: after any run of changes it is the old
   * log followed by exactly those changes, the status is the last one set,
   * and the order's lines and amounts never change.
   */
  lemma {:induction false} ReplayAppendsTracking(o: Order, steps: seq<Tracking>)
    ensures Replay(o, steps).order_tracking == o.order_tracking + steps
    ensures steps != [] ==> Replay(o, steps).status == steps[|steps| - 1].status
    ensures Replay(o, steps).items == o.items && Replay(o, steps).total_amount == o.total_amount
    ensures Replay(o, steps).user_id == o.user_id && Replay(o, steps).payment_method == o.payment_method
    decreases |steps|
  {
    if steps != [] {
      var o1 := Transition(o, steps[0].status, steps[0].updated_at);
      ReplayAppendsTracking(o1, steps[1..]);
      assert [steps[0]] + steps[1..] == steps;
      if |steps| > 1 {
        assert steps[1..][|steps[1..]| - 1] == steps[|steps| - 1];
      }
    }
  }

  /** A paid order stays paid; an unpaid one becomes paid exactly when a cash order is marked delivered. */
  lemma {:induction false} ReplayPaidIff(o: Order, steps: seq<Tracking>)
    ensures Replay(o, steps).payment_status == PaymentStatus.PAID <==>
      o.payment_status == PaymentStatus.PAID
      || (o.payment_method == CASH && exists i :: 0 <= i < |steps| && steps[i].status == DELIVERED)
    decreases |steps|
  {
    if steps != [] {
      var o1 := Transition(o, steps[0].status, steps[0].updated_at);
      ReplayPaidIff(o1, steps[1..]);
      assert forall i :: 0 <= i < |steps[1..]| ==> steps[1..][i] == steps[i + 1];
      if o.payment_method == CASH && (exists i :: 0 <= i < |steps| && steps[i].status == DELIVERED) {
        var i :| 0 <= i < |steps| && steps[i].status == DELIVERED;
        if i > 0 {
          assert steps[1..][i - 1].status == DELIVERED;
        }
      }
    }
  }

  /** updateOrderStatus: validate the status, then set it and log it. */
  method UpdateOrderStatus(db: Db, orderId: Id, status: string, now: int) returns (r: Result<Order, OrderError>)
    modifies db
    ensures db.carts == old(db.carts) && db.variants == old(db.variants) && db.coupons == old(db.coupons)
    ensures db.users == old(db.users) && db.reviews == old(db.reviews)
    ensures ParseOrderStatus(status).None? ==> r == Err(InvalidStatus) && db.orders == old(db.orders)
    ensures ParseOrderStatus(status).Some? && orderId !in old(db.orders) ==>
      r == Err(OrderNotFound) && db.orders == old(db.orders)
    ensures ParseOrderStatus(status).Some? && orderId in old(db.orders) ==>
      && db.orders == old(db.orders)[orderId := Transition(old(db.orders)[orderId], ParseOrderStatus(status).value, now)]
      && r == Ok(db.orders[orderId])
  {
    var s := ParseOrderStatus(status);
    if s.None? {
      return Err(InvalidStatus);
    }
    if orderId !in db.orders {
      return Err(OrderNotFound);
    }
    var o := db.orders[orderId];
    var paid := o.payment_status;
    if o.payment_method == CASH && s.value == DELIVERED {
      paid := PaymentStatus.PAID;
    }
    var updated := o.(status := s.value, payment_status := paid,
                      order_tracking := o.order_tracking + [Tracking(s.value, now)]);
    db.orders := db.orders[orderId := updated];
    r := Ok(updated);
  }
}
