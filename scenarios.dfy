/**
 * Two checkouts in a row with one checkout modal, with the seed coupons: once with the
 * modal's re-render as the storefront does it, once with a re-render that re-applies the code.
 */
module Scenarios {
  import opened Wrappers
  import opened Types
  import Cart
  import Fixtures
  import Storefront

  const Bag := Product("b1", "Tote", 5000, "Totes", "", "", false, false)
  const Wallet := Product("w1", "Wallet", 300, "Wallets", "", "", false, false)
  const Buyer := CheckoutDetails("Ann", "ann@example.com", "0100", "1 Road", "Dhaka", "1000", Cod, "", "", "", "")

  method AddBag(app: Storefront.App)
    requires app.Valid() && app.cart == []
    modifies app`cart
    ensures app.Valid() && app.cart == [CartItem(Bag, 1)] && Cart.CartTotal(app.cart) == 5000
  {
    app.AddToCart(Bag);
    OneLine(Bag);
  }

  /** A fresh storefront with the 5000 bag in the cart and VELVET10 applied in its modal. */
  method OpenWithBag() returns (app: Storefront.App, modal: Storefront.CheckoutModal)
    ensures fresh(app) && fresh(modal)
    ensures app.Valid() && app.cart == [CartItem(Bag, 1)] && Cart.CartTotal(app.cart) == 5000
    ensures modal.Valid() && modal.total == 5000 && modal.coupons == Fixtures.SeedCoupons
    ensures modal.applied == Some("VELVET10") && modal.discount == 500.0
  {
    app := new Storefront.App([], [], []);
    modal := new Storefront.CheckoutModal(Cart.CartTotal(app.cart), Fixtures.SeedCoupons);
    AddBag(app);
    modal.Rerender(Cart.CartTotal(app.cart), Fixtures.SeedCoupons);
    Fixtures.SeedCouponsAtCheckout();
    modal.EnterPromoCode("VELVET10");
    var rejected := modal.ApplyPromo();
  }

  /**
   * A fresh storefront with one modal: the 5000 bag is added, VELVET10 is applied and the order
   * placed. With `recompute` the modal re-applies the code on every re-render, otherwise it
   * keeps its state as the storefront does.
   */
  method FirstOrder(recompute: bool) returns (app: Storefront.App, modal: Storefront.CheckoutModal, first: Order)
    ensures fresh(app) && fresh(modal)
    ensures app.Valid() && app.cart == [] && modal.Valid()
    ensures modal.total == 0 && modal.coupons == Fixtures.SeedCoupons && modal.applied == Some("VELVET10")
    ensures modal.discount == if recompute then 0.0 else 500.0
    ensures first.total == 5000 && first.discountApplied == 500.0 && first.finalTotal == 4500.0
  {
    app, modal := OpenWithBag();
    first := Storefront.SubmitCheckout(modal, app, Buyer, "1", "day 1");
    if recompute {
      modal.Retotal(Cart.CartTotal(app.cart), Fixtures.SeedCoupons);
    } else {
      modal.Rerender(Cart.CartTotal(app.cart), Fixtures.SeedCoupons);
    }
  }

  /**
   * VELVET10 is applied to a 5000 cart and the order is placed; then a 300 cart is checked out
   * without pressing Apply. The modal still holds the 500 discount, so the second order is
   * recorded with a final total of -200.
   */
  method StaleDiscountCheckout() returns (first: Order, second: Order)
    ensures first.total == 5000 && first.discountApplied == 500.0 && first.finalTotal == 4500.0
    ensures second.total == 300 && second.discountApplied == 500.0 && second.finalTotal == -200.0
  {
    var app, modal;
    app, modal, first := FirstOrder(false);
    app.AddToCart(Wallet);
    OneLine(Wallet);
    modal.Rerender(Cart.CartTotal(app.cart), Fixtures.SeedCoupons);
    second := Storefront.SubmitCheckout(modal, app, Buyer, "2", "day 2");
  }

  /**
   * The same steps with a re-render that re-applies VELVET10 to each new total: the second
   * order gets 10% of 300 off and costs 270.
   */
  method RecomputedDiscountCheckout() returns (first: Order, second: Order)
    ensures first.total == 5000 && first.discountApplied == 500.0 && first.finalTotal == 4500.0
    ensures second.total == 300 && second.discountApplied == 30.0 && second.finalTotal == 270.0
  {
    var app, modal;
    app, modal, first := FirstOrder(true);
    app.AddToCart(Wallet);
    OneLine(Wallet);
    Fixtures.SeedCouponsAtCheckout();
    modal.Retotal(Cart.CartTotal(app.cart), Fixtures.SeedCoupons);
    second := Storefront.SubmitCheckout(modal, app, Buyer, "2", "day 2");
  }

  /** Adding a product to the empty cart gives one line whose total is the product's price. */
  lemma OneLine(p: Product)
    ensures Cart.AddToCart([], p) == [CartItem(p, 1)]
    ensures Cart.CartTotal([CartItem(p, 1)]) == p.price
  {
    Cart.AddToCartNew([], p);
    assert [CartItem(p, 1)][1..] == [];
  }
}
