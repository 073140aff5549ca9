/** The seed data of constants.ts, with properties stated over the model: the two staff accounts and the two seed coupons. */
module Fixtures {
  import opened Wrappers
  import opened Types
  import opened Pricing
  import opened Identity

  const SeedUsers: seq<User> := [
    User("1", "Super Admin", "admin@velvetvogue.com", SuperAdmin, Some("admin")),
    User("2", "Shop Manager", "shop@velvetvogue.com", ShopAdmin, Some("shop"))
  ]

  const SeedCoupons: seq<Coupon> := [Coupon("VELVET10", 10, true), Coupon("WELCOME20", 20, false)]

  /**
   * On the seed coupons, "VELVET10" takes 10% off; the inactive "WELCOME20" and the lower-case
   * "velvet10" take nothing off and are reported as invalid.
   */
  lemma {:induction false} SeedCouponsAtCheckout()
    ensures PromoDiscount(5000, SeedCoupons, "VELVET10") == 500.0
    ensures FinalTotal(5000, PromoDiscount(5000, SeedCoupons, "VELVET10")) == 4500.0
    ensures PromoDiscount(300, SeedCoupons, "VELVET10") == 30.0
    ensures PromoDiscount(5000, SeedCoupons, "WELCOME20") == 0.0 && RejectsCode(SeedCoupons, "WELCOME20")
    ensures PromoDiscount(5000, SeedCoupons, "velvet10") == 0.0 && RejectsCode(SeedCoupons, "velvet10")
  {
    PromoDiscountSpec(5000, SeedCoupons, "VELVET10", 0);
    PromoDiscountSpec(300, SeedCoupons, "VELVET10", 0);
    NoMatchNoDiscount(5000, SeedCoupons, "WELCOME20");
    NoMatchNoDiscount(5000, SeedCoupons, "velvet10");
  }

  /** The shop manager signs in with the seeded password and lands on the admin view; a wrong password fails. */
  lemma {:induction false} SeedShopManagerLogin()
    ensures FindUser(SeedUsers, "shop@velvetvogue.com", "shop") == Some(SeedUsers[1])
    ensures LandingView(SeedUsers[1].role) == Admin
    ensures FindUser(SeedUsers, "shop@velvetvogue.com", "admin").None?
  {
    LoginFindsOwner(SeedUsers, 1, "shop");
    AdminRoles(ShopAdmin);
    FindUserSpec(SeedUsers, "shop@velvetvogue.com", "admin");
  }
}
