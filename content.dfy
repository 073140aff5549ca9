/**
 * The coupon and testimonial lists the admin dashboard edits in its draft of the site
 * configuration (App.tsx:1270-1321).
 */
module Content {
  import opened Wrappers
  import opened Types
  import opened Seqs
  import opened Text
  import opened Pricing

  /** The coupon `handleAddCoupon` creates: the code upper-cased, active, the percentage as typed (App.tsx:1297-1301). */
  function NewCoupon(code: string, percent: int): (r: Coupon)
  {
    Coupon(Upper(code), percent, true)
  }

  /** `toggleCoupon` (App.tsx:1309-1313): flips the active flag of coupon `i`. */
  function ToggleCoupon(coupons: seq<Coupon>, i: nat): (r: seq<Coupon>)
    requires i < |coupons|
  {
    coupons[i := coupons[i].(isActive := !coupons[i].isActive)]
  }

  /** The check of `handleAddReview` (App.tsx:1271): a name and a comment are required. */
  predicate ReviewAcceptable(name: string, comment: string)
  {
    name != "" && comment != ""
  }

  /** The testimonial `handleAddReview` creates; an empty role reads "Customer" (App.tsx:1272-1278). */
  function NewTestimonial(id: string, name: string, role: string, comment: string, rating: int): (r: Testimonial)
  {
    Testimonial(id, name, if role == "" then "Customer" else role, comment, rating)
  }

  /** Toggling changes only the active flag of the targeted coupon. */
  lemma {:induction false} ToggleCouponTargetsOne(coupons: seq<Coupon>, i: nat)
    requires i < |coupons|
    ensures |ToggleCoupon(coupons, i)| == |coupons|
    ensures ToggleCoupon(coupons, i)[i].code == coupons[i].code
    ensures ToggleCoupon(coupons, i)[i].discountPercent == coupons[i].discountPercent
    ensures ToggleCoupon(coupons, i)[i].isActive == !coupons[i].isActive
    ensures forall j :: 0 <= j < |coupons| && j != i ==> ToggleCoupon(coupons, i)[j] == coupons[j]
  {
  }

  /** Toggling the same coupon twice restores the list. */
  lemma {:induction false} ToggleCouponTwice(coupons: seq<Coupon>, i: nat)
    requires i < |coupons|
    ensures ToggleCoupon(ToggleCoupon(coupons, i), i) == coupons
  {
  }

  /** A coupon switched off no longer redeems any code. */
  lemma {:induction false} ToggledOffNeverMatches(coupons: seq<Coupon>, i: nat, code: string)
    requires i < |coupons| && coupons[i].isActive
    ensures !Matches(ToggleCoupon(coupons, i)[i], code)
  {
  }

  /**
   * A coupon just created is found at checkout under its upper-cased code, unless an earlier
   * active coupon has that code, and then it takes its percentage off the total.
   */
  lemma {:induction false} CreatedCouponRedeems(coupons: seq<Coupon>, code: string, percent: int, total: int)
    requires FindCoupon(coupons, Upper(code)).None?
    ensures FindCoupon(coupons + [NewCoupon(code, percent)], Upper(code)) == Some(NewCoupon(code, percent))
    ensures PromoDiscount(total, coupons + [NewCoupon(code, percent)], Upper(code)) ==
            total as real * (percent as real / 100.0)
  {
    FindAppend(coupons, [NewCoupon(code, percent)], Redeems(Upper(code)));
  }

  /**
   * Because the lookup is case-sensitive, a code typed with a lower-case letter never finds
   * the coupon created from it: adding the coupon changes nothing for that code.
   */
  lemma {:induction false} CreatedCouponIgnoresLowerCase(coupons: seq<Coupon>, code: string, percent: int)
    requires Upper(code) != code
    ensures FindCoupon(coupons + [NewCoupon(code, percent)], code) == FindCoupon(coupons, code)
  {
    FindAppend(coupons, [NewCoupon(code, percent)], Redeems(code));
    assert !Redeems(code)(NewCoupon(code, percent));
  }
}
