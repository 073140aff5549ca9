/**
 * The storefront's mutable state: the `App` component's state and handlers, the checkout
 * modal's promo-code state, and the admin dashboard's draft of the coupon and review lists.
 * Every handler replaces fields through the pure functions of the other modules.
 */
module Storefront {
  import opened Wrappers
  import opened Types
  import Seqs
  import Cart
  import Pricing
  import Identity
  import Catalog
  import Content
  import Access

  /** The `App` component's state (App.tsx:1961-1975) and its handlers. */
  class App {
    var activeView: ViewState
    var cart: seq<CartItem>
    var searchQuery: string
    var products: seq<Product>
    var categories: seq<Category>
    var users: seq<User>
    var orders: seq<Order>
    var currentUser: Option<User>

    /** The cart handlers keep one line per product and every quantity at least 1. */
    ghost predicate Valid()
      reads this
    {
      Cart.WellFormed(cart)
    }

    constructor (initialProducts: seq<Product>, initialCategories: seq<Category>, initialUsers: seq<User>)
      ensures Valid()
      ensures activeView == Home && cart == [] && searchQuery == "" && orders == [] && currentUser == None
      ensures products == initialProducts && categories == initialCategories && users == initialUsers
    {
      activeView := Home;
      cart := [];
      searchQuery := "";
      products := initialProducts;
      categories := initialCategories;
      users := initialUsers;
      orders := [];
      currentUser := None;
    }

    /** `handleAddToCart` (App.tsx:1992-2000). */
    method AddToCart(p: Product)
      requires Valid()
      modifies this`cart
      ensures Valid()
      ensures cart == Cart.AddToCart(old(cart), p)
      ensures |cart| == if Cart.HasId(old(cart), p.id) then |old(cart)| else |old(cart)| + 1
      ensures Cart.CartCount(cart) == Cart.CartCount(old(cart)) + 1
      ensures Cart.CartTotal(cart) == Cart.CartTotal(old(cart)) + Cart.UnitPrice(old(cart), p)
    {
      Cart.AddToCartWellFormed(cart, p);
      Cart.AddToCartSums(cart, p);
      cart := Cart.AddToCart(cart, p);
    }

    /** `handleRemoveFromCart` (App.tsx:2002-2004). */
    method RemoveFromCart(id: string)
      requires Valid()
      modifies this`cart
      ensures Valid()
      ensures cart == Cart.RemoveFromCart(old(cart), id)
      ensures !Cart.HasId(cart, id)
      ensures forall line :: line in cart <==> line in old(cart) && line.product.id != id
    {
      Cart.RemoveFromCartWellFormed(cart, id);
      forall line ensures line in Cart.RemoveFromCart(cart, id) <==> line in cart && line.product.id != id {
        Cart.RemoveFromCartMembers(cart, id, line);
      }
      Cart.RemoveFromCartClearsId(cart, id);
      cart := Cart.RemoveFromCart(cart, id);
    }

    /** `handleUpdateQuantity` (App.tsx:2006-2014). */
    method UpdateQuantity(id: string, delta: int)
      requires Valid()
      modifies this`cart
      ensures Valid()
      ensures cart == Cart.UpdateQuantity(old(cart), id, delta)
      ensures |cart| == |old(cart)|
    {
      Cart.UpdateQuantityWellFormed(cart, id, delta);
      cart := Cart.UpdateQuantity(cart, id, delta);
    }

    /**
     * `handleCheckout` (App.tsx:2016-2031): one `Pending` order snapshotting the cart goes in
     * front of the ledger and the cart is emptied. The id and date stand for `Date.now()`.
     */
    method Checkout(details: CheckoutDetails, discount: real, finalTotal: real, orderId: string, date: string)
      returns (order: Order)
      requires Valid()
      modifies this`cart, this`orders
      ensures Valid()
      ensures order == Order(orderId, date, details, old(cart), Cart.CartTotal(old(cart)), discount, finalTotal, Pending)
      ensures orders == [order] + old(orders)
      ensures cart == []
    {
      order := Order(orderId, date, details, cart, Cart.CartTotal(cart), discount, finalTotal, Pending);
      orders := [order] + orders;
      cart := [];
    }

    /** `handleLogin` (App.tsx:2033-2041): a failed attempt changes nothing. */
    method Login(email: string, pass: string) returns (ok: bool)
      modifies this`currentUser, this`activeView
      ensures ok == Identity.FindUser(users, email, pass).Some?
      ensures ok ==> currentUser == Identity.FindUser(users, email, pass) &&
                     activeView == Identity.LandingView(currentUser.value.role)
      ensures !ok ==> currentUser == old(currentUser) && activeView == old(activeView)
      ensures ok ==> (ShowsAdminDashboard() <==> currentUser.value.role != Customer)
    {
      var found := Identity.FindUser(users, email, pass);
      ok := found.Some?;
      if ok {
        currentUser := found;
        activeView := Identity.LandingView(found.value.role);
        Identity.AdminRoles(found.value.role);
        Identity.ShowsAdminDashboardIff(activeView, currentUser);
      }
    }

    /**
     * `handleRegister` (App.tsx:2043-2055): a taken email changes nothing; otherwise one customer
     * account is appended and signed in. The id stands for `Date.now()`.
     */
    method Register(name: string, email: string, pass: string, id: string) returns (ok: bool)
      modifies this`users, this`currentUser, this`activeView
      ensures ok == !Identity.EmailTaken(old(users), email)
      ensures ok ==> users == old(users) + [Identity.NewCustomer(id, name, email, pass)] &&
                     currentUser == Some(Identity.NewCustomer(id, name, email, pass)) && activeView == Home
      ensures ok ==> Identity.FindUser(users, email, pass) == currentUser
      ensures !ok ==> users == old(users) && currentUser == old(currentUser) && activeView == old(activeView)
    {
      ok := !Identity.EmailTaken(users, email);
      if ok {
        var u := Identity.NewCustomer(id, name, email, pass);
        Identity.RegisterThenLogin(users, id, name, email, pass);
        users := users + [u];
        currentUser := Some(u);
        activeView := Home;
      }
    }

    /** `onLogout` (App.tsx:2150). */
    method Logout()
      modifies this`currentUser, this`activeView
      ensures currentUser == None && activeView == Home
    {
      currentUser := None;
      activeView := Home;
    }

    /** `filteredProducts` (App.tsx:1987-1990): the products the shop view lists. */
    function ShownProducts(): (r: seq<Product>)
      reads this
    {
      Catalog.FilteredProducts(products, searchQuery)
    }

    /** `onSearchChange={setSearchQuery}` (App.tsx:2253) and the "All" button (App.tsx:2106). */
    method SearchChange(query: string)
      modifies this`searchQuery
      ensures searchQuery == query
      ensures forall p :: p in ShownProducts() <==> p in products && Catalog.MatchesQuery(p, query)
      ensures query == "" ==> ShownProducts() == products
    {
      searchQuery := query;
      forall p ensures p in ShownProducts() <==> p in products && Catalog.MatchesQuery(p, query) {
        Catalog.FilteredProductsMembers(products, query, p);
      }
      if query == "" {
        Catalog.EmptyQueryShowsAll(products);
      }
    }

    /** `handleCategoryClick` (App.tsx:2057-2060): the shop opens on the category's products. */
    method CategoryClick(cat: Category)
      modifies this`searchQuery, this`activeView
      ensures searchQuery == cat && activeView == Shop
      ensures forall p :: p in products && p.category == cat ==> p in ShownProducts()
    {
      searchQuery := cat;
      activeView := Shop;
      forall p | p in products && p.category == cat ensures p in ShownProducts() {
        Catalog.CategoryQueryFindsCategory(products, p);
      }
    }

    /** Whether the admin dashboard is rendered (App.tsx:2132). */
    predicate ShowsAdminDashboard()
      reads this
    {
      Identity.ShowsAdminDashboard(activeView, currentUser)
    }

    /** `handleAddCategory` with `onAddCategory` (App.tsx:1235-1244, 2144). */
    method AddCategory(name: Category) returns (ok: bool)
      modifies this`categories
      ensures ok == Catalog.CategoryAcceptable(old(categories), name)
      ensures categories == if ok then old(categories) + [name] else old(categories)
    {
      ok := Catalog.CategoryAcceptable(categories, name);
      if ok {
        categories := categories + [name];
      }
    }

    /** `onDeleteCategory` (App.tsx:2145). */
    method DeleteCategory(c: Category)
      modifies this`categories
      ensures categories == Catalog.DeleteCategory(old(categories), c)
      ensures c !in categories
    {
      Catalog.DeleteCategoryMembers(categories, c, c);
      categories := Catalog.DeleteCategory(categories, c);
    }

    /** `onAddProduct` (App.tsx:2141). */
    method AddProduct(p: Product)
      modifies this`products
      ensures products == old(products) + [p]
    {
      products := products + [p];
    }

    /** `onUpdateProduct` (App.tsx:2142). */
    method UpdateProduct(p: Product)
      modifies this`products
      ensures products == Catalog.UpdateProduct(old(products), p)
      ensures |products| == |old(products)|
    {
      products := Catalog.UpdateProduct(products, p);
    }

    /** `onDeleteProduct` (App.tsx:2143). */
    method DeleteProduct(id: string)
      modifies this`products
      ensures products == Catalog.DeleteProduct(old(products), id)
      ensures forall p :: p in products <==> p in old(products) && p.id != id
    {
      forall p ensures p in Catalog.DeleteProduct(products, id) <==> p in products && p.id != id {
        Catalog.DeleteProductMembers(products, id, p);
      }
      products := Catalog.DeleteProduct(products, id);
    }

    /** `onUpdateOrder` (App.tsx:2147); the status select passes the order with a new status (App.tsx:1544). */
    method UpdateOrder(o: Order)
      modifies this`orders
      ensures orders == Catalog.UpdateOrder(old(orders), o)
      ensures |orders| == |old(orders)|
    {
      orders := Catalog.UpdateOrder(orders, o);
    }

    /**
     * `handleCreateUser` with `onAddUser` (App.tsx:1323-1338, 2148): all three fields are
     * required, but unlike registration the email is not checked for duplicates.
     */
    method CreateUser(id: string, name: string, email: string, pass: string, role: UserRole) returns (ok: bool)
      modifies this`users
      ensures ok == (email != "" && pass != "" && name != "")
      ensures users == if ok then old(users) + [User(id, name, email, role, Some(pass))] else old(users)
    {
      ok := email != "" && pass != "" && name != "";
      if ok {
        users := users + [User(id, name, email, role, Some(pass))];
      }
    }

    /** `onDeleteUser` (App.tsx:2149). */
    method DeleteUser(id: string)
      modifies this`users
      ensures users == Catalog.DeleteUser(old(users), id)
      ensures forall u :: u in users <==> u in old(users) && u.id != id
    {
      forall u ensures u in Catalog.DeleteUser(users, id) <==> u in users && u.id != id {
        Catalog.DeleteUserMembers(users, id, u);
      }
      users := Catalog.DeleteUser(users, id);
    }
  }

  /**
   * The promo-code state of `CheckoutModal` (App.tsx:809-857). The App renders one modal for its
   * whole life (App.tsx:2301-2308) and the state is created before the `isOpen` early return,
   * so `promoCode` and `discount` survive closing the modal, placing an order and any change of
   * the `total` and `coupons` props.
   */
  class CheckoutModal {
    /** The `total` prop: the App's current `cartTotal`. */
    var total: int
    /** The `coupons` prop: the live site configuration's coupons. */
    var coupons: seq<Coupon>
    var promoCode: string
    var discount: real
    /** The code behind the current discount, if the last `applyPromo` found a coupon. */
    var applied: Option<string>
    /** The `total` and `coupons` props at the moment the current discount was computed. */
    ghost var appliedTotal: int
    ghost var appliedCoupons: seq<Coupon>

    /** The discount on display is what the applied code yielded on the props of that moment. */
    ghost predicate Valid()
      reads this
    {
      match applied
      case None => discount == 0.0
      case Some(code) => discount == Pricing.PromoDiscount(appliedTotal, appliedCoupons, code)
    }

    /** The discount was computed on the props as they are now. */
    ghost predicate Current()
      reads this
    {
      appliedTotal == total && appliedCoupons == coupons
    }

    /** The first render: empty promo code, no discount (App.tsx:829-830). */
    constructor (total: int, coupons: seq<Coupon>)
      ensures Valid() && Current()
      ensures this.total == total && this.coupons == coupons && promoCode == "" && discount == 0.0
      ensures applied == None
    {
      this.total := total;
      this.coupons := coupons;
      promoCode := "";
      discount := 0.0;
      applied := None;
      appliedTotal := total;
      appliedCoupons := coupons;
    }

    /**
     * A re-render with new props, as the source does it: `promoCode` and `discount` are kept,
     * so a discount applied to an earlier total stays on display.
     */
    method Rerender(newTotal: int, newCoupons: seq<Coupon>)
      requires Valid()
      modifies this`total, this`coupons
      ensures Valid()
      ensures total == newTotal && coupons == newCoupons
    {
      total := newTotal;
      coupons := newCoupons;
    }

    /**
     * A re-render that re-applies the applied code to the new props, so the discount always
     * belongs to the total on display.
     */
    method Retotal(newTotal: int, newCoupons: seq<Coupon>)
      requires Valid()
      modifies this`total, this`coupons, this`discount, this`appliedTotal, this`appliedCoupons
      ensures Valid() && Current()
      ensures total == newTotal && coupons == newCoupons
      ensures discount == match applied
                          case None => 0.0
                          case Some(code) => Pricing.PromoDiscount(newTotal, newCoupons, code)
    {
      total := newTotal;
      coupons := newCoupons;
      appliedTotal := newTotal;
      appliedCoupons := newCoupons;
      match applied
      case None =>
        discount := 0.0;
      case Some(code) =>
        discount := Pricing.PromoDiscount(newTotal, newCoupons, code);
    }

    /** The promo-code input's `onChange` (App.tsx:956). */
    method EnterPromoCode(code: string)
      requires Valid()
      modifies this`promoCode
      ensures Valid() && promoCode == code
    {
      promoCode := code;
    }

    /** `applyPromo` (App.tsx:840-848): `rejected` is the "Invalid or inactive promo code" alert. */
    method ApplyPromo() returns (rejected: bool)
      requires Valid()
      modifies this`discount, this`applied, this`appliedTotal, this`appliedCoupons
      ensures Valid() && Current()
      ensures discount == Pricing.PromoDiscount(total, coupons, promoCode)
      ensures rejected == Pricing.RejectsCode(coupons, promoCode)
      ensures applied == if Pricing.FindCoupon(coupons, promoCode).Some? then Some(promoCode) else None
    {
      discount := Pricing.PromoDiscount(total, coupons, promoCode);
      applied := if Pricing.FindCoupon(coupons, promoCode).Some? then Some(promoCode) else None;
      appliedTotal := total;
      appliedCoupons := coupons;
      rejected := Pricing.RejectsCode(coupons, promoCode);
    }

    /** `finalTotal` (App.tsx:850). */
    function FinalTotal(): (r: real)
      reads this
    {
      Pricing.FinalTotal(total, discount)
    }

    /**
     * With in-range percentages the discount lies between 0 and the total it was computed on,
     * so the amount to pay lies between the current total less that earlier total and the
     * current total; only when the discount is current is it bounded below by 0.
     */
    lemma FinalTotalInRange()
      requires Valid()
      ensures InRange() ==> 0.0 <= discount <= appliedTotal as real
      ensures InRange() ==> (total - appliedTotal) as real <= FinalTotal() <= total as real
      ensures InRange() && Current() ==> 0.0 <= FinalTotal() <= total as real
    {
      if applied.Some? && InRange() {
        Pricing.FinalTotalBounds(appliedTotal, appliedCoupons, applied.value);
      }
    }

    /** The discount was computed on a non-negative total with coupon percentages in 0..100. */
    ghost predicate InRange()
      reads this
    {
      appliedTotal >= 0 && forall k :: 0 <= k < |appliedCoupons| ==> Pricing.PercentInRange(appliedCoupons[k])
    }
  }

  /**
   * `handleSubmit` of the checkout form calling `handleCheckout` (App.tsx:852-855, 2016-2031):
   * the order records the modal's discount and final total, the one being the total less the
   * other. The bound 0..total holds only when the discount was computed on the current total.
   */
  method SubmitCheckout(modal: CheckoutModal, app: App, details: CheckoutDetails, orderId: string, date: string)
    returns (order: Order)
    requires modal.Valid() && app.Valid()
    requires modal.total == Cart.CartTotal(app.cart)
    modifies app`cart, app`orders
    ensures app.Valid()
    ensures app.orders == [order] + old(app.orders) && app.cart == []
    ensures order.items == old(app.cart) && order.status == Pending
    ensures order.total == modal.total && order.discountApplied == modal.discount
    ensures order.finalTotal == order.total as real - order.discountApplied
    ensures modal.InRange() ==> (order.total - modal.appliedTotal) as real <= order.finalTotal <= order.total as real
    ensures modal.InRange() && modal.Current() ==> 0.0 <= order.finalTotal
  {
    modal.FinalTotalInRange();
    order := app.Checkout(details, modal.discount, modal.FinalTotal(), orderId, date);
  }

  /** The admin dashboard's draft of the coupon and review lists (App.tsx:1142, 1270-1321). */
  class AdminDashboard {
    const user: User
    var coupons: seq<Coupon>
    var testimonials: seq<Testimonial>

    constructor (user: User, coupons: seq<Coupon>, testimonials: seq<Testimonial>)
      ensures this.user == user && this.coupons == coupons && this.testimonials == testimonials
    {
      this.user := user;
      this.coupons := coupons;
      this.testimonials := testimonials;
    }

    /** `TABS` (App.tsx:1360): the tabs the signed-in user's role may open. */
    function Tabs(): (r: seq<Access.AdminTab>)
      reads this
    {
      Access.VisibleTabs(user.role)
    }

    /** The tab bar offers exactly the tabs `canAccess` allows, none at all to a customer. */
    lemma TabsFollowRole()
      ensures forall t :: t in Tabs() <==> Access.CanAccess(user.role, t)
      ensures user.role == Customer ==> Tabs() == []
    {
      forall t ensures t in Tabs() <==> Access.CanAccess(user.role, t) {
        Access.VisibleIffAccess(user.role, t);
      }
      if user.role == Customer {
        Access.CustomerSeesNone();
      }
    }

    /** `handleAddCoupon` (App.tsx:1295-1307): an empty code is refused. */
    method AddCoupon(code: string, percent: int) returns (ok: bool)
      modifies this`coupons
      ensures ok == (code != "")
      ensures coupons == if ok then old(coupons) + [Content.NewCoupon(code, percent)] else old(coupons)
    {
      ok := code != "";
      if ok {
        coupons := coupons + [Content.NewCoupon(code, percent)];
      }
    }

    /** `toggleCoupon` (App.tsx:1309-1313); the index comes from the rendered list. */
    method ToggleCoupon(i: nat)
      requires i < |coupons|
      modifies this`coupons
      ensures coupons == Content.ToggleCoupon(old(coupons), i)
    {
      coupons := Content.ToggleCoupon(coupons, i);
    }

    /** `deleteCoupon` (App.tsx:1315-1321): only after the confirmation dialog. */
    method DeleteCoupon(i: nat, confirmed: bool)
      modifies this`coupons
      ensures coupons == if confirmed then Seqs.RemoveAt(old(coupons), i) else old(coupons)
    {
      if confirmed {
        coupons := Seqs.RemoveAt(coupons, i);
      }
    }

    /** `handleAddReview` (App.tsx:1270-1285): the new review goes first. */
    method AddReview(id: string, name: string, role: string, comment: string, rating: int) returns (ok: bool)
      modifies this`testimonials
      ensures ok == Content.ReviewAcceptable(name, comment)
      ensures testimonials ==
        if ok then [Content.NewTestimonial(id, name, role, comment, rating)] + old(testimonials) else old(testimonials)
    {
      ok := Content.ReviewAcceptable(name, comment);
      if ok {
        testimonials := [Content.NewTestimonial(id, name, role, comment, rating)] + testimonials;
      }
    }

    /** `deleteTestimonial` (App.tsx:1287-1293): only after the confirmation dialog. */
    method DeleteTestimonial(i: nat, confirmed: bool)
      modifies this`testimonials
      ensures testimonials == if confirmed then Seqs.RemoveAt(old(testimonials), i) else old(testimonials)
    {
      if confirmed {
        testimonials := Seqs.RemoveAt(testimonials, i);
      }
    }
  }
}
