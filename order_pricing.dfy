/**
 * The money arithmetic of createOrder (src/services/order.service.ts):
 * subtotal, 10% tax, the fixed shipping fee, the flat coupon deduction,
 * loyalty redemption capped at half the pre-discount total, and points earned.
 * Amounts are exact reals; Math.floor and Math.round are written out.
 */
module OrderPricing {
  import opened Wrappers
  import opened Models
  import opened JsMath

  const ShippingFee: real := 49000.0
  const TaxRate: real := 0.1
  /** One loyalty point is worth 1000 currency units. */
  const PointValue: int := 1000
  /** Points earned per currency unit of subtotal. */
  const EarnRate: real := 0.0001

  function LineAmount(item: CartItem): real {
    item.quantity as real * item.unit_price * (1.0 - item.discount)
  }

  /** The `reduce` over the lines, left to right. */
  function Subtotal(items: seq<CartItem>): real {
    if items == [] then 0.0 else Subtotal(items[..|items| - 1]) + LineAmount(items[|items| - 1])
  }

  lemma {:induction false} SubtotalAppend(a: seq<CartItem>, b: seq<CartItem>)
    ensures Subtotal(a + b) == Subtotal(a) + Subtotal(b)
  {
    if b != [] {
      var b' := b[..|b| - 1];
      assert (a + b)[..|a + b| - 1] == a + b';
      assert (a + b)[|a + b| - 1] == b[|b| - 1];
      SubtotalAppend(a, b');
    } else {
      assert a + b == a;
    }
  }

  /** A line with a non-negative quantity and price and a discount of at most 100% costs nothing negative. */
  lemma LineAmountNonNegative(item: CartItem)
    requires item.quantity >= 0 && item.unit_price >= 0.0 && item.discount <= 1.0
    ensures LineAmount(item) >= 0.0
  {
    var q, p, f := item.quantity as real, item.unit_price, 1.0 - item.discount;
    assert q * p >= 0.0;
    assert (q * p) * f >= 0.0;
  }

  lemma {:induction false} SubtotalNonNegative(items: seq<CartItem>)
    requires forall i :: 0 <= i < |items| ==>
      items[i].quantity >= 0 && items[i].unit_price >= 0.0 && items[i].discount <= 1.0
    ensures Subtotal(items) >= 0.0
  {
    if items != [] {
      SubtotalNonNegative(items[..|items| - 1]);
      LineAmountNonNegative(items[|items| - 1]);
    }
  }

  /** subtotal + shipping fee + tax: the total before coupon and loyalty deductions. */
  function GrossTotal(subtotal: real): real {
    subtotal + ShippingFee + subtotal * TaxRate
  }

  /**
   * The loyalty deduction: the points' value, but no more than half the
   * pre-discount total (then rounded down).
   */
  function LoyaltyDiscount(points: int, gross: real): (d: int)
    ensures d == Min(points * PointValue, Floor(gross * 0.5))
  {
    var max := points * PointValue;
    if max as real > gross * 0.5 then Floor(gross * 0.5) else max
  }

  /** Math.floor(discount / 1000): the points charged for a deduction. */
  function PointsUsed(discount: int): (n: int)
    ensures n * PointValue <= discount < (n + 1) * PointValue
  {
    discount / PointValue
  }

  /** Math.round(subtotal * 0.0001). */
  function PointsEarned(subtotal: real): (n: int)
    ensures subtotal * EarnRate - 0.5 < n as real <= subtotal * EarnRate + 0.5
    ensures subtotal >= 0.0 ==> n >= 0
  {
    Round(subtotal * EarnRate)
  }

  /** The points charged are the balance, or as many as half the total pays for, whichever is less. */
  lemma PointsUsedIsCapped(points: int, gross: real)
    ensures PointsUsed(LoyaltyDiscount(points, gross)) == Min(points, Floor(gross * 0.5) / PointValue)
    ensures points >= 0 && gross >= 0.0 ==> PointsUsed(LoyaltyDiscount(points, gross)) >= 0
  {
    var b := Floor(gross * 0.5);
    if points * PointValue <= b {
      assert (points * PointValue) / PointValue == points;
      assert points <= b / PointValue;
    } else {
      assert b / PointValue < points;
    }
  }

  datatype Quote = Quote(
    subtotal: real,
    gross_total: real,
    coupon_discount: real,
    loyalty_discount: int,
    total_amount: int,
    loyalty_points_used: int,
    loyalty_points_earned: int)

  /**
   * The price of an order, or None when the coupon alone exceeds the
   * pre-discount total. The loyalty deduction is not part of that check.
   */
  function Price(items: seq<CartItem>, coupon: real, points: int): (r: Option<Quote>)
    ensures r.None? <==> GrossTotal(Subtotal(items)) - coupon < 0.0
    ensures r.Some? ==>
      var q := r.value;
      && q.subtotal == Subtotal(items)
      && q.gross_total == q.subtotal + ShippingFee + q.subtotal * TaxRate
      && q.coupon_discount == coupon
      && q.loyalty_discount <= points * PointValue
      && q.loyalty_discount as real <= q.gross_total * 0.5
      && q.loyalty_points_used <= points
      && q.total_amount as real <= q.gross_total - coupon - q.loyalty_discount as real < q.total_amount as real + 1.0
      && q.loyalty_points_earned == PointsEarned(q.subtotal)
      && q.loyalty_discount == LoyaltyDiscount(points, q.gross_total)
      && q.loyalty_points_used == PointsUsed(q.loyalty_discount)
  {
    var subtotal := Subtotal(items);
    var gross := GrossTotal(subtotal);
    if gross - coupon < 0.0 then None
    else
      var loyalty := LoyaltyDiscount(points, gross);
      Some(Quote(subtotal, gross, coupon, loyalty, Floor(gross - coupon - loyalty as real),
                 PointsUsed(loyalty), PointsEarned(subtotal)))
  }

  /** When the coupon is at most half the pre-discount total, the amount due is not negative. */
  lemma TotalNonNegativeWhenCouponWithinHalf(items: seq<CartItem>, coupon: real, points: int)
    requires Price(items, coupon, points).Some?
    requires coupon <= Price(items, coupon, points).value.gross_total * 0.5
    ensures Price(items, coupon, points).value.total_amount >= 0
  {
  }

  /** The amount due can be negative: a coupon worth the whole total plus a loyalty deduction. */
  lemma TotalMayBeNegative()
    ensures exists items: seq<CartItem>, coupon: real, points: int ::
      Price(items, coupon, points).Some? && Price(items, coupon, points).value.total_amount < 0
  {
    var free := CartItem("v", "", map[], 1, 0.0, 0.0, 0.0, None);
    assert Subtotal([free]) == 0.0 by {
      assert [free][..0] == [];
    }
    assert Price([free], 49000.0, 100).value.total_amount == -24500;
  }

  /** The sample order: two units at 100 000, no discount, coupon or points, costs 269 000. */
  lemma SampleOrderTotal()
    ensures var item := CartItem("v", "", map[], 2, 100000.0, 100000.0, 0.0, None);
      Price([item], 0.0, 0).Some? &&
      var q := Price([item], 0.0, 0).value;
      q.subtotal == 200000.0 && q.gross_total - q.subtotal - ShippingFee == 20000.0 && q.total_amount == 269000
  {
    var item := CartItem("v", "", map[], 2, 100000.0, 100000.0, 0.0, None);
    assert [item][..0] == [];
  }

  /**
   * The deduction is not the value of the points charged: with 200 points on
   * a 269 000 total, 134 500 is deducted but only 134 points (134 000) are charged.
   */
  lemma DeductionExceedsPointsCharged()
    ensures LoyaltyDiscount(200, 269000.0) == 134500
    ensures PointsUsed(LoyaltyDiscount(200, 269000.0)) * PointValue == 134000
  {
  }

  /**
   * The balance rewrite `$set: {loyalty_points: remaining + earned}`, where
   * `remaining` is `base` less the points charged. The code takes as `base`
   * the points read at the start of the saga; the intended base is the
   * buyer's stored balance.
   */
  function Rewrite(base: int, used: int, earned: int): (b: int)
    ensures 0 <= used <= base && earned >= 0 ==> b >= earned
  {
    base - used + earned
  }

  /** Whoever did not redeem points (guest, or opted out) is left with only the points just earned. */
  lemma OptOutBalanceAsWritten(stored: int, gross: real, earned: int)
    requires stored > 0 && gross >= 0.0
    ensures var used := PointsUsed(LoyaltyDiscount(0, gross));
      Rewrite(0, used, earned) == earned
      && Rewrite(0, used, earned) != Rewrite(stored, used, earned)
  {
  }

  /** Redeeming from the stored balance never drives it negative and never loses points. */
  lemma NewBalanceKeepsPoints(stored: int, gross: real, subtotal: real)
    requires stored >= 0 && gross >= 0.0 && subtotal >= 0.0
    ensures var used := PointsUsed(LoyaltyDiscount(stored, gross));
      var b := Rewrite(stored, used, PointsEarned(subtotal));
      0 <= used <= stored && b >= PointsEarned(subtotal) >= 0
  {
    PointsUsedIsCapped(stored, gross);
  }
}
