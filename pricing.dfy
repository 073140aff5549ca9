/**
 * Checkout pricing of the `CheckoutModal` component (App.tsx:840-850): an optional percentage
 * coupon looked up by exact, case-sensitive code among the active coupons; no shipping fee.
 * Amounts are exact reals standing for the JavaScript numbers.
 */
module Pricing {
  import opened Wrappers
  import opened Types
  import opened Seqs

  /** `c.code === promoCode && c.isActive`: exact, case-sensitive code and the active flag. */
  predicate Matches(c: Coupon, code: string)
  {
    c.code == code && c.isActive
  }

  function Redeems(code: string): (r: Coupon -> bool)
  {
    (c: Coupon) => Matches(c, code)
  }

  /** The coupon `applyPromo` finds for the entered code (App.tsx:841). */
  function FindCoupon(coupons: seq<Coupon>, code: string): (r: Option<Coupon>)
  {
    Find(coupons, Redeems(code))
  }

  /** The discount `applyPromo` stores: `total * (discountPercent / 100)`, or 0 when no coupon matches (App.tsx:840-848). */
  function PromoDiscount(total: int, coupons: seq<Coupon>, code: string): (r: real)
  {
    match FindCoupon(coupons, code)
    case Some(c) => total as real * (c.discountPercent as real / 100.0)
    case None => 0.0
  }

  /** The alert `applyPromo` raises: no coupon matched and the entered code is not empty (App.tsx:846). */
  predicate RejectsCode(coupons: seq<Coupon>, code: string)
  {
    FindCoupon(coupons, code).None? && code != ""
  }

  /** `finalTotal` (App.tsx:850). */
  function FinalTotal(total: int, discount: real): (r: real)
  {
    total as real - discount
  }

  ghost predicate PercentInRange(c: Coupon)
  {
    0 <= c.discountPercent <= 100
  }

  /**
   * The discount is the percentage of the first active coupon whose code equals the entered
   * one exactly; when there is none the discount is 0.
   */
  lemma {:induction false} PromoDiscountSpec(total: int, coupons: seq<Coupon>, code: string, k: nat)
    requires k < |coupons| && Matches(coupons[k], code)
    requires forall j :: 0 <= j < k ==> !Matches(coupons[j], code)
    ensures FindCoupon(coupons, code) == Some(coupons[k])
    ensures PromoDiscount(total, coupons, code) == total as real * (coupons[k].discountPercent as real / 100.0)
  {
    FindFirst(coupons, Redeems(code), k);
  }

  /** No discount, and the code is reported, exactly when no coupon matches. */
  lemma {:induction false} NoMatchNoDiscount(total: int, coupons: seq<Coupon>, code: string)
    ensures FindCoupon(coupons, code).None? <==> forall k :: 0 <= k < |coupons| ==> !Matches(coupons[k], code)
    ensures FindCoupon(coupons, code).None? ==> PromoDiscount(total, coupons, code) == 0.0
    ensures RejectsCode(coupons, code) <==> code != "" && forall k :: 0 <= k < |coupons| ==> !Matches(coupons[k], code)
  {
    assert forall k :: 0 <= k < |coupons| ==> (Redeems(code)(coupons[k]) <==> Matches(coupons[k], code));
  }

  /** An inactive coupon never produces a discount, whatever the code. */
  lemma {:induction false} InactiveNeverRedeems(total: int, coupons: seq<Coupon>, code: string)
    requires forall k :: 0 <= k < |coupons| ==> !coupons[k].isActive
    ensures PromoDiscount(total, coupons, code) == 0.0 && FindCoupon(coupons, code).None?
  {
  }

  /**
   * With a non-negative total and a coupon percentage between 0 and 100 the discount stays
   * between 0 and the total, and so does the final total.
   */
  lemma {:induction false} FinalTotalBounds(total: int, coupons: seq<Coupon>, code: string)
    requires total >= 0
    requires forall k :: 0 <= k < |coupons| ==> PercentInRange(coupons[k])
    ensures 0.0 <= PromoDiscount(total, coupons, code) <= total as real
    ensures 0.0 <= FinalTotal(total, PromoDiscount(total, coupons, code)) <= total as real
  {
    var d := PromoDiscount(total, coupons, code);
    match FindCoupon(coupons, code)
    case Some(c) =>
      assert c in coupons;
      var k :| 0 <= k < |coupons| && coupons[k] == c;
      assert PercentInRange(coupons[k]);
      var x, f := total as real, c.discountPercent as real / 100.0;
      PercentFraction(c.discountPercent);
      assert d == x * f;
      MultiplyBetween(x, f);
      assert 0.0 <= d <= x;
    case None =>
      assert d == 0.0;
  }

  lemma PercentFraction(p: int)
    requires 0 <= p <= 100
    ensures 0.0 <= p as real / 100.0 <= 1.0
  {
  }

  lemma MultiplyBetween(x: real, f: real)
    requires x >= 0.0 && 0.0 <= f <= 1.0
    ensures 0.0 <= x * f <= x
  {
    assert x * f <= x * 1.0;
  }

  /** Nothing bounds the percentage: a coupon above 100% makes the final total negative. */
  lemma {:induction false} OverDiscountGoesNegative(total: int, coupons: seq<Coupon>, code: string)
    requires total > 0
    requires FindCoupon(coupons, code).Some? && FindCoupon(coupons, code).value.discountPercent > 100
    ensures FinalTotal(total, PromoDiscount(total, coupons, code)) < 0.0
  {
    var c := FindCoupon(coupons, code).value;
    var x, f := total as real, c.discountPercent as real / 100.0;
    assert f > 1.0 by {
      assert c.discountPercent as real > 100.0;
    }
    assert PromoDiscount(total, coupons, code) == x * f;
    MultiplyAbove(x, f);
  }

  lemma MultiplyAbove(x: real, f: real)
    requires x > 0.0 && f > 1.0
    ensures x * f > x
  {
    assert x * f == x + x * (f - 1.0);
    assert x * (f - 1.0) > 0.0;
  }
}
