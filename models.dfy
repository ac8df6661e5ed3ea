/**
 * The documents the services read and write (cart, product variant, coupon,
 * user, order, review) and the document store that holds them.
 */
module Models {
  import opened Wrappers
  import opened Constants

  /** A document identifier; JavaScript treats the empty string as "no id", so ids are non-empty. */
  type Id = s: string | |s| > 0 witness "0"

  /** A cart line. `image` is the variant's first image, absent when the variant has none. */
  datatype CartItem = CartItem(
    product_variant_id: Id,
    product_variant_name: string,
    attributes: map<string, string>,
    quantity: int,
    original_price: real,
    unit_price: real,
    discount: real,
    image: Option<string>)

  /**
   * A product variant. `rating_distribution` is stored as an object whose
   * fields (`one_star` … `five_star`) may be missing in older documents.
   */
  datatype Variant = Variant(
    variant_name: string,
    attributes: map<string, string>,
    price: real,
    original_price: real,
    discount: real,
    quantity: int,
    is_active: bool,
    images: seq<string>,
    average_rating: real,
    review_count: int,
    rating_distribution: map<string, int>)

  datatype Coupon = Coupon(
    code: string,
    discount_amount: real,
    usage_count: int,
    usage_limit: int,
    orders_used: seq<Id>,
    is_active: bool)

  /** The user fields this core reads and writes. */
  datatype User = User(email: string, full_name: string, loyalty_points: int)

  datatype Tracking = Tracking(status: OrderStatus, updated_at: int)

  datatype Order = Order(
    user_id: Id,
    user_name: Option<string>,
    email: Option<string>,
    coupon_code: Option<string>,
    address: string,
    items: seq<CartItem>,
    total_amount: int,
    discount_amount: real,
    loyalty_points_used: int,
    loyalty_points_earned: int,
    status: OrderStatus,
    payment_method: PaymentMethod,
    payment_status: PaymentStatus,
    order_tracking: seq<Tracking>)

  /** A review; `rating` is absent for a review without stars. */
  datatype Review = Review(
    id: Id,
    product_variant_id: Id,
    user_id: Option<Id>,
    content: string,
    rating: Option<int>)

  /** The variant with that id, if the catalog lists it and it is active. */
  predicate ActiveIn(catalog: map<Id, Variant>, id: Id) {
    id in catalog && catalog[id].is_active
  }

  /** The authoritative document store, one collection per field. */
  class Db {
    var carts: map<Id, seq<CartItem>>     // keyed by user id: at most one cart per user
    var variants: map<Id, Variant>
    var coupons: map<string, Coupon>      // keyed by the unique coupon code
    var users: map<Id, User>
    var orders: map<Id, Order>
    var reviews: seq<Review>              // in insertion order

    constructor ()
      ensures carts == map[] && variants == map[] && coupons == map[]
      ensures users == map[] && orders == map[] && reviews == []
    {
      carts, variants, coupons := map[], map[], map[];
      users, orders, reviews := map[], map[], [];
    }
  }
}
