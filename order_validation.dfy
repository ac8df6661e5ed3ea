/**
 * The request schemas of src/validation/order.validation.ts as validity
 * predicates over a JSON value. Email and calendar-date format checks are
 * taken as parameters (`isEmail`, `isDate`).
 */
module OrderValidation {
  import opened Wrappers
  import opened Constants
  import opened Models
  import OrderPricing
  import Paging

  datatype Json =
    | JNull
    | JBool(b: bool)
    | JNum(n: real)
    | JStr(s: string)
    | JArr(elems: seq<Json>)
    | JObj(fields: map<string, Json>)

  // -------------------------------------------------------------- numbers

  predicate IsDigit(c: char) {
    '0' <= c <= '9'
  }

  predicate AllDigits(s: string) {
    forall i :: 0 <= i < |s| ==> IsDigit(s[i])
  }

  /** The value of a string of decimal digits (leading zeros allowed). */
  function DigitsValue(s: string): nat
    requires AllDigits(s)
  {
    if s == [] then 0 else DigitsValue(s[..|s| - 1]) * 10 + (s[|s| - 1] - '0') as nat
  }

  /** The decimal rendering of a natural number, without leading zeros. */
  function DecimalString(n: nat): (s: string)
    ensures |s| > 0 && AllDigits(s)
  {
    var d := ['0' + (n % 10) as char];
    if n < 10 then d else DecimalString(n / 10) + d
  }

  /** Reading back a rendered number gives the number. */
  lemma {:induction false} DecimalRoundTrip(n: nat)
    ensures DigitsValue(DecimalString(n)) == n
  {
    var d := ['0' + (n % 10) as char];
    if n >= 10 {
      var s := DecimalString(n / 10) + d;
      assert s[..|s| - 1] == DecimalString(n / 10);
      DecimalRoundTrip(n / 10);
    }
  }

  /**
   * `z.coerce.number()`, i.e. JavaScript's Number(…), on the inputs this model
   * covers: numbers, booleans, null and unsigned decimal-digit strings
   * (the empty string reads as 0). None stands for NaN, which is rejected.
   */
  function CoerceNumber(v: Json): (r: Option<real>)
    ensures v.JNum? ==> r == Some(v.n)
    ensures v.JStr? && AllDigits(v.s) ==> r == Some(DigitsValue(v.s) as real)
    ensures v.JObj? || v.JArr? ==> r.None?
  {
    match v
    case JNum(n) => Some(n)
    case JBool(b) => Some(if b then 1.0 else 0.0)
    case JNull => Some(0.0)
    case JStr(s) => if AllDigits(s) then Some(DigitsValue(s) as real) else None
    case JArr(_) => None
    case JObj(_) => None
  }

  predicate IsInteger(x: real) {
    x == x.Floor as real
  }

  /** A required coerced number that passes `pred`. */
  predicate NumberWith(v: Option<Json>, pred: real -> bool) {
    v.Some? && CoerceNumber(v.value).Some? && pred(CoerceNumber(v.value).value)
  }

  /** An optional coerced number: absent, or present and passing `pred`. */
  predicate OptionalNumberWith(v: Option<Json>, pred: real -> bool) {
    v.None? || NumberWith(v, pred)
  }

  // -------------------------------------------------------------- strings

  function Field(o: map<string, Json>, key: string): Option<Json> {
    if key in o then Some(o[key]) else None
  }

  predicate NonEmptyString(v: Option<Json>) {
    v.Some? && v.value.JStr? && |v.value.s| > 0
  }

  /** An optional string: absent, or a string passing `pred`. */
  predicate OptionalStringWith(v: Option<Json>, pred: string -> bool) {
    v.None? || (v.value.JStr? && pred(v.value.s))
  }

  /** `^C{n}$` for a character class C, read left to right as a regex matcher does. */
  function RepeatClass(s: string, cls: char -> bool, n: nat): bool {
    if n == 0 then s == []
    else |s| > 0 && cls(s[0]) && RepeatClass(s[1..], cls, n - 1)
  }

  /** The matcher accepts exactly the strings of length n made of class characters. */
  lemma {:induction false} RepeatClassIff(s: string, cls: char -> bool, n: nat)
    ensures RepeatClass(s, cls, n) <==> |s| == n && forall i :: 0 <= i < |s| ==> cls(s[i])
  {
    if n > 0 && |s| > 0 {
      RepeatClassIff(s[1..], cls, n - 1);
      assert forall i :: 1 <= i < |s| ==> s[i] == s[1..][i - 1];
    }
  }

  predicate CouponChar(c: char) {
    'A' <= c <= 'Z' || '0' <= c <= '9'
  }

  predicate HexChar(c: char) {
    '0' <= c <= '9' || 'a' <= c <= 'f' || 'A' <= c <= 'F'
  }

  /** `/^[A-Z0-9]{5}$/`. */
  predicate CouponCodeValid(s: string) {
    RepeatClass(s, CouponChar, 5)
  }

  /** `/^[0-9a-fA-F]{24}$/`. */
  predicate OrderIdValid(s: string) {
    RepeatClass(s, HexChar, 24)
  }

  /** A coupon code is five characters, each an upper-case letter or a digit. */
  lemma CouponCodeShape(s: string)
    ensures CouponCodeValid(s) <==> |s| == 5 && forall i :: 0 <= i < |s| ==> CouponChar(s[i])
  {
    RepeatClassIff(s, CouponChar, 5);
  }

  /** An order id is 24 hexadecimal digits of either case. */
  lemma OrderIdShape(s: string)
    ensures OrderIdValid(s) <==> |s| == 24 && forall i :: 0 <= i < |s| ==> HexChar(s[i])
  {
    RepeatClassIff(s, HexChar, 24);
  }

  /** `z.nativeEnum(…)` of a string enum: a string equal to one of its values. */
  predicate IsPaymentMethod(v: Option<Json>) {
    v.Some? && v.value.JStr? && ParsePaymentMethod(v.value.s).Some?
  }

  predicate IsOrderStatus(v: Option<Json>) {
    v.Some? && v.value.JStr? && ParseOrderStatus(v.value.s).Some?
  }

  predicate IsPaymentStatus(v: Option<Json>) {
    v.Some? && v.value.JStr? && ParsePaymentStatus(v.value.s).Some?
  }

  /** `.strict()`: no key outside the schema's. */
  predicate OnlyKeys(o: map<string, Json>, allowed: set<string>) {
    o.Keys <= allowed
  }

  // ---------------------------------------------------------- createOrder

  predicate QuantityOk(x: real) { IsInteger(x) && x >= 1.0 }
  predicate PriceOk(x: real) { x >= 0.0 }
  predicate DiscountOk(x: real) { 0.0 <= x <= 0.5 }

  /** `z.record(z.string(), z.string().nonempty())`. */
  predicate AttributesValid(v: Option<Json>) {
    v.Some? && v.value.JObj?
    && forall k :: k in v.value.fields ==> v.value.fields[k].JStr? && |v.value.fields[k].s| > 0
  }

  predicate ImagesValid(v: Option<Json>) {
    v.Some? && v.value.JObj? && NonEmptyString(Field(v.value.fields, "url"))
  }

  /** One element of `items` (a non-strict object: unknown keys are dropped, not rejected). */
  predicate ItemValid(item: Json) {
    item.JObj?
    && var f := item.fields;
    && NonEmptyString(Field(f, "product_variant_id"))
    && NonEmptyString(Field(f, "product_variant_name"))
    && AttributesValid(Field(f, "attributes"))
    && NumberWith(Field(f, "quantity"), QuantityOk)
    && NumberWith(Field(f, "unit_price"), PriceOk)
    && OptionalNumberWith(Field(f, "discount"), DiscountOk)
    && ImagesValid(Field(f, "images"))
  }

  const CreateOrderKeys: set<string> :=
    {"name", "email", "coupon_code", "address", "items", "payment_method", "using_loyalty_points"}

  /** The createOrder body. `using_loyalty_points` is `z.coerce.boolean()`, which accepts any value. */
  predicate CreateOrderBodyValid(body: Json, isEmail: string -> bool) {
    body.JObj?
    && var f := body.fields;
    && OnlyKeys(f, CreateOrderKeys)
    && NonEmptyString(Field(f, "name"))
    && NonEmptyString(Field(f, "email")) && isEmail(f["email"].s)
    && OptionalStringWith(Field(f, "coupon_code"), CouponCodeValid)
    && NonEmptyString(Field(f, "address"))
    && (Field(f, "items").None?
        || (f["items"].JArr? && forall i :: 0 <= i < |f["items"].elems| ==> ItemValid(f["items"].elems[i])))
    && IsPaymentMethod(Field(f, "payment_method"))
  }

  /** The parsed line of a valid item; a missing discount defaults to 0. */
  function ParseItem(item: Json): (r: CartItem)
    requires ItemValid(item)
    ensures r.quantity >= 1 && r.unit_price >= 0.0 && 0.0 <= r.discount <= 0.5
    ensures "discount" !in item.fields ==> r.discount == 0.0
  {
    var f := item.fields;
    var attrs := f["attributes"].fields;
    CartItem(
      f["product_variant_id"].s,
      f["product_variant_name"].s,
      map k | k in attrs :: attrs[k].s,
      CoerceNumber(f["quantity"]).value.Floor,
      0.0,
      CoerceNumber(f["unit_price"]).value,
      if "discount" in f then CoerceNumber(f["discount"]).value else 0.0,
      Some(f["images"].fields["url"].s))
  }

  /** The items of a valid createOrder body always price at a non-negative subtotal. */
  lemma ValidItemsPriceNonNegative(items: seq<Json>)
    requires forall i :: 0 <= i < |items| ==> ItemValid(items[i])
    ensures OrderPricing.Subtotal(seq(|items|, i requires 0 <= i < |items| => ParseItem(items[i]))) >= 0.0
  {
    var parsed := seq(|items|, i requires 0 <= i < |items| => ParseItem(items[i]));
    OrderPricing.SubtotalNonNegative(parsed);
  }

  /** The payment-method field accepts exactly the names of the two methods. */
  lemma PaymentMethodFieldIff(v: Json)
    ensures IsPaymentMethod(Some(v)) <==> exists m: PaymentMethod :: v == JStr(PaymentMethodName(m))
  {
    if exists m: PaymentMethod :: v == JStr(PaymentMethodName(m)) {
      var m: PaymentMethod :| v == JStr(PaymentMethodName(m));
      EnumNamesRoundTrip(OrderStatus.PENDING, m, PaymentStatus.PAID);
    }
  }

  /** The createOrder body is strict: any key outside its seven is rejected. */
  lemma CreateOrderRejectsUnknownKey(body: Json, isEmail: string -> bool, key: string)
    requires body.JObj? && key in body.fields && key !in CreateOrderKeys
    ensures !CreateOrderBodyValid(body, isEmail)
  {
  }

  // ---------------------------------------------------- updateOrderStatus

  predicate UpdateStatusBodyValid(body: Json) {
    body.JObj? && OnlyKeys(body.fields, {"status"}) && IsOrderStatus(Field(body.fields, "status"))
  }

  /**
   * The status schema accepts exactly the bodies `{status: <name>}` of the
   * four statuses, so a validated body never reaches the service's
   * 'Invalid status' branch.
   */
  lemma UpdateStatusBodyIff(body: Json)
    ensures UpdateStatusBodyValid(body) <==>
      exists s: OrderStatus :: body == JObj(map["status" := JStr(OrderStatusName(s))])
  {
    if UpdateStatusBodyValid(body) {
      var st := ParseOrderStatus(body.fields["status"].s).value;
      assert body.fields == map["status" := JStr(OrderStatusName(st))];
    } else if exists s: OrderStatus :: body == JObj(map["status" := JStr(OrderStatusName(s))]) {
      var s: OrderStatus :| body == JObj(map["status" := JStr(OrderStatusName(s))]);
      EnumNamesRoundTrip(s, CASH, PaymentStatus.PAID);
      assert false;
    }
  }

  // ---------------------------------------------------------- searchOrder

  const SearchOrderKeys: set<string> :=
    {"order_id", "user_name", "status", "payment_method", "payment_status", "from_date", "to_date", "page", "limit"}

  predicate PageOk(x: real) { IsInteger(x) && x >= 1.0 }
  predicate LimitOk(x: real) { IsInteger(x) && 1.0 <= x <= 100.0 }

  predicate SearchOrderQueryValid(query: Json, isDate: string -> bool) {
    query.JObj?
    && var f := query.fields;
    && OnlyKeys(f, SearchOrderKeys)
    && OptionalStringWith(Field(f, "order_id"), OrderIdValid)
    && OptionalStringWith(Field(f, "user_name"), (s: string) => true)
    && (Field(f, "status").None? || IsOrderStatus(Field(f, "status")))
    && (Field(f, "payment_method").None? || IsPaymentMethod(Field(f, "payment_method")))
    && (Field(f, "payment_status").None? || IsPaymentStatus(Field(f, "payment_status")))
    && OptionalStringWith(Field(f, "from_date"), isDate)
    && OptionalStringWith(Field(f, "to_date"), isDate)
    && OptionalNumberWith(Field(f, "page"), PageOk)
    && OptionalNumberWith(Field(f, "limit"), LimitOk)
  }

  /** The search query is strict: any key outside its nine is rejected. */
  lemma SearchOrderRejectsUnknownKey(query: Json, isDate: string -> bool, key: string)
    requires query.JObj? && key in query.fields && key !in SearchOrderKeys
    ensures !SearchOrderQueryValid(query, isDate)
  {
  }

  /** The page and limit a query asks for; absent ones take the readers' defaults 1 and 10. */
  function PageAndLimit(query: Json): (int, int)
    requires query.JObj?
  {
    var f := query.fields;
    var page := if "page" in f && CoerceNumber(f["page"]).Some? then CoerceNumber(f["page"]).value.Floor else 1;
    var limit := if "limit" in f && CoerceNumber(f["limit"]).Some? then CoerceNumber(f["limit"]).value.Floor else 10;
    (page, limit)
  }

  /**
   * A valid query pages sanely: at most 100 hits per page, a non-negative
   * offset, and a finite page count.
   */
  lemma ValidQueryPages(query: Json, isDate: string -> bool, total: nat)
    requires SearchOrderQueryValid(query, isDate)
    ensures var (page, limit) := PageAndLimit(query);
      && page >= 1 && 1 <= limit <= 100
      && Paging.PageOffset(page, limit) >= 0
      && Paging.TotalPages(total, limit).Some?
  {
  }

  /** A plain decimal page number is read as that page. */
  lemma DecimalPageAccepted(n: nat)
    requires n >= 1
    ensures NumberWith(Some(JStr(DecimalString(n))), PageOk)
  {
    DecimalRoundTrip(n);
  }
}
