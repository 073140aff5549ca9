# Storefront state model

A Dafny model of the in-memory core of a single-page bag shop (`App.tsx`): the cart
aggregator, checkout pricing with percentage coupons, the order ledger, sign-in and
registration, role gating of the admin console, and the admin console's list edits
(categories, products, orders, users, coupons, reviews). Each React handler is a small
list transform; the model states what each transform does to the list and proves the
properties the storefront relies on: one cart line per product, quantities never below 1,
exact count and total changes, "only the targeted element changes", exact and
case-sensitive coupon lookup, and session changes only on success.

Layout, one module per component:

- `wrappers.dfy` (`Wrappers`): `Option`.
- `seqs.dfy` (`Seqs`): the JavaScript array combinators the handlers are written with:
  `filter`, `map`, `find`, and a one-element `splice`. It also holds their generic lemmas.
- `text.dfy` (`Text`): `toLowerCase`, `toUpperCase` (ASCII only) and `includes`.
- `types.dfy` (`Types`): the records of `types.ts`.
- `cart.dfy` (`Cart`): `handleAddToCart`, `handleRemoveFromCart`, `handleUpdateQuantity`,
  `cartCount`, `cartTotal`.
- `pricing.dfy` (`Pricing`): `applyPromo` and `finalTotal` of the checkout modal.
- `identity.dfy` (`Identity`): the credential lookup, the duplicate-email check, the new
  customer account and the `role.includes('ADMIN')` test.
- `access.dfy` (`Access`): `canAccess` and the visible tab list.
- `catalog.dfy` (`Catalog`): the `onUpdate*`/`onDelete*` callbacks, the category check,
  the shop search and a customer's order history.
- `content.dfy` (`Content`): coupon creation and toggling, and review creation.
- `storefront.dfy` (`Storefront`): three classes. `App` holds the component's state fields
  and has one method per handler. `CheckoutModal` holds the promo-code state.
  `AdminDashboard` holds the draft coupon and review lists. A top-level `SubmitCheckout`
  connects the modal to `App.Checkout`.
- `fixtures.dfy` (`Fixtures`): the seed coupons and staff accounts of `constants.ts`.
- `scenarios.dfy` (`Scenarios`): two checkouts in a row through one `App` and one
  `CheckoutModal`, with the seed coupons.

Modelling choices:

- Prices, quantities and coupon percentages are integers.
- The discount and the final total are exact reals: `total * (percent / 100)`.
- Ids and dates produced by `Date.now()` / `new Date()` are method parameters.
- `window.confirm` is a boolean parameter.
- The validation alerts are boolean results of the methods.
- The checkout modal records which code its discount came from (`applied`). The source keeps
  only the discount; only the corrected re-render reads the record.
- A cart line keeps the product record it was added with. So when the id is already in the
  cart, `handleAddToCart` raises the total by the stored line's price. That equals the
  product's current price unless the product was edited after it was added.
  `Cart.AddToCartSums` states both.

Behaviour of `App.tsx` the model keeps as written:

- No shipping fee is added anywhere in the final total.
- Decrementing a quantity stops at 1; it never removes the line.
- The coupon lookup is case-sensitive, but `handleAddCoupon` upper-cases new codes. So a
  code typed in lower case never finds the coupon created from it
  (`Content.CreatedCouponIgnoresLowerCase`).
- Coupon percentages are never validated. The bounds on the final total hold only for
  percentages between 0 and 100 (`Pricing.FinalTotalBounds`). Above 100 the final total is
  negative (`Pricing.OverDiscountGoesNegative`).
- Registration rejects a duplicate email, but the admin's "create user" form does not check
  for one (`Storefront.App.CreateUser`).
- The checkout modal is rendered once for the App's whole life, and its promo-code state is
  never reset. A discount applied to one cart total therefore stays in place for later
  totals; see "## Findings".

## Model

| member | source | states |
|---|---|---|
| `Seqs.FilterMembers` | App.tsx:2002-2004 | an element is in a `filter` result exactly when it is in the input and passes the test |
| `Seqs.FilterConcat` | App.tsx:2002-2004 | `filter` distributes over concatenation, so the kept elements keep their relative order |
| `Seqs.FilterDropsOne` | App.tsx:2143 | when exactly one position fails the test, `filter` removes that position and nothing else |
| `Seqs.FindFirst` | App.tsx:841 | `find` returns the first element that satisfies the test |
| `Seqs.FindAppend` | App.tsx:2034 | appending to the list does not change what `find` already returned; otherwise the result comes from the appended part |
| `Seqs.RemoveAtShifts` | App.tsx:1287-1293 | `splice(i, 1)` on a copy drops position `i`: earlier elements stay, later ones move up by one, and an index past the end removes nothing |
| `Text.ContainsIffOccurs` | App.tsx:1987-1990 | `includes` holds exactly when the query occurs at some position of the string |
| `Text.ContainsTrivial` | App.tsx:1987-1990 | every string includes the empty string and includes itself |
| `Text.UpperFixed` | App.tsx:1298 | upper-casing leaves a string unchanged exactly when it has no lower-case letter |
| `Cart.SumsConcat` | App.tsx:1984-1985 | `cartCount` and `cartTotal` of a concatenation are the sums of the parts |
| `Cart.SumsPointUpdate` | App.tsx:1984-1985 | changing one line moves `cartCount` and `cartTotal` by that line's difference alone |
| `Cart.AddToCartExisting` | App.tsx:1992-2000 | adding a product whose id is on one line increments that line's quantity by 1; all other lines and the line count stay the same |
| `Cart.AddToCartNew` | App.tsx:1992-2000 | adding a product whose id is absent appends one line with quantity 1 |
| `Cart.AddToCartTwice` | App.tsx:1992-2000 | adding the same new product twice gives one line with quantity 2, never two lines |
| `Cart.AddToCartWellFormed` | App.tsx:1992-2000 | adding keeps product ids unique and quantities at least 1; the line count grows only for a new id |
| `Cart.AddToCartSums` | App.tsx:1984-2000 | adding raises `cartCount` by exactly 1 and `cartTotal` by exactly the unit price charged; that is the product's price when the stored line is not stale |
| `Cart.RemoveFromCartMembers` | App.tsx:2002-2004 | removing keeps exactly the lines with a different id |
| `Cart.RemoveFromCartClearsId` | App.tsx:2002-2004 | after removing, no line with the id is left |
| `Cart.RemoveFromCartConcat` | App.tsx:2002-2004 | removing preserves the relative order of the remaining lines |
| `Cart.RemoveFromCartAbsent` | App.tsx:2002-2004 | removing an id that is not in the cart changes nothing |
| `Cart.RemoveFromCartPresent` | App.tsx:2002-2004 | in a cart with unique ids, removing the id on line `k` deletes exactly that line and lowers count and total by that line's share |
| `Cart.RemoveFromCartWellFormed` | App.tsx:2002-2004 | removing keeps ids unique and quantities at least 1 |
| `Cart.UpdateQuantityLines` | App.tsx:2006-2014 | every line keeps its product and position; matching lines get `max(1, quantity + delta)`, others keep their quantity; no line is removed |
| `Cart.UpdateQuantityWellFormed` | App.tsx:2006-2014 | no quantity ever falls below 1 and ids stay unique |
| `Cart.UpdateQuantitySums` | App.tsx:2006-2014 | in a cart with unique ids only line `k` changes; `cartCount` moves by its quantity change and `cartTotal` by its price times that change |
| `Cart.UpdateQuantityAbsent` | App.tsx:2006-2014 | updating an id that is not in the cart changes nothing |
| `Pricing.PromoDiscountSpec` | App.tsx:840-848 | the first active coupon whose code equals the entered code exactly is used, and the discount is `total * percent / 100` |
| `Pricing.NoMatchNoDiscount` | App.tsx:840-848 | no coupon is found exactly when none is active with that code; the discount is then 0, and the code is reported as invalid exactly when it is non-empty |
| `Pricing.InactiveNeverRedeems` | App.tsx:841 | inactive coupons never give a discount |
| `Pricing.FinalTotalBounds` | App.tsx:840-850 | for a non-negative total and percentages in 0..100, both the discount and the final total lie between 0 and the total |
| `Pricing.OverDiscountGoesNegative` | App.tsx:840-850 | a found coupon above 100% makes the final total negative, because creation never bounds the percentage |
| `Identity.AdminRoles` | App.tsx:2037 | `role.includes('ADMIN')` holds exactly for SUPER_ADMIN and SHOP_ADMIN; sign-in opens the admin view for them and the home view for a customer |
| `Identity.ShowsAdminDashboardIff` | App.tsx:2132 | the admin dashboard renders exactly on the admin view with a signed-in non-customer |
| `Identity.FindUserSpec` | App.tsx:2033-2036 | a sign-in finds an account only on an exact email and password match, and finds none exactly when no account matches |
| `Identity.LoginFindsOwner` | App.tsx:2033-2036 | with unique emails, an account's owner signs in with its own password |
| `Identity.EmailTakenIff` | App.tsx:2044 | the duplicate check is an exact, case-sensitive search for the email |
| `Identity.RegisterKeepsEmailsUnique` | App.tsx:2043-2052 | registering a free email keeps emails unique |
| `Identity.RegisterThenLogin` | App.tsx:2033-2052 | a newly registered customer can sign in with the email and password just given |
| `Access.AllTabsComplete` | App.tsx:1347-1358 | every admin tab is listed in `ALL_TABS` |
| `Access.VisibleIffAccess` | App.tsx:1341-1360 | a tab is visible exactly when `canAccess` allows it |
| `Access.SuperAdminSeesAll` | App.tsx:1341-1360 | SUPER_ADMIN sees every tab in `ALL_TABS` order |
| `Access.ShopAdminTabs` | App.tsx:1341-1360 | SHOP_ADMIN sees exactly dashboard, orders, products, categories and store design, in `ALL_TABS` order |
| `Access.CustomerSeesNone` | App.tsx:1341-1360 | a customer sees no admin tab |
| `Catalog.FilteredProductsMembers` | App.tsx:1987-1990 | the search keeps exactly the products whose lower-cased name or category includes the lower-cased query |
| `Catalog.EmptyQueryShowsAll` | App.tsx:1987-1990 | an empty search shows the whole catalogue in order |
| `Catalog.CategoryQueryFindsCategory` | App.tsx:1987-1990 | searching for a product's category name finds that product |
| `Catalog.UserOrdersMembers` | App.tsx:980-983 | a customer's history holds exactly the orders whose checkout email equals the account's email, ignoring case |
| `Catalog.UserOrdersIgnoresCase` | App.tsx:980-983 | the history does not depend on the letter case of the account's email |
| `Catalog.UpdateProductReplacesOne` | App.tsx:2142 | with unique ids, updating replaces only the product with the edited id |
| `Catalog.UpdateProductKeepsIds` | App.tsx:2142 | updating keeps every id on its position, so ids stay unique |
| `Catalog.DeleteProductMembers` | App.tsx:2143 | deleting removes every product with the id and keeps all others |
| `Catalog.DeleteProductRemovesOne` | App.tsx:2143 | with unique ids, deleting removes exactly one entry and keeps the order of the rest |
| `Catalog.AddCategoryKeepsNoDuplicates` | App.tsx:1235-1244 | a category that passes the non-empty and not-yet-listed check keeps the list free of duplicates |
| `Catalog.DeleteCategoryMembers` | App.tsx:2145 | deleting a category removes every occurrence of the name and keeps every other name |
| `Catalog.DeleteCategoryRemovesOne` | App.tsx:2145 | without duplicates, deleting removes exactly that entry |
| `Catalog.SetOrderStatus` | App.tsx:2147 | with unique order ids, choosing a status changes only that order's status |
| `Catalog.UpdateOrderKeepsIds` | App.tsx:2147 | updating an order keeps every order id on its position |
| `Catalog.DeleteUserMembers` | App.tsx:2149 | deleting removes every account with the id and keeps all others |
| `Catalog.DeleteUserRemovesOne` | App.tsx:2149 | with unique ids, deleting removes exactly one account |
| `Content.ToggleCouponTargetsOne` | App.tsx:1309-1313 | toggling flips only the active flag of the targeted coupon |
| `Content.ToggleCouponTwice` | App.tsx:1309-1313 | toggling the same coupon twice restores the list |
| `Content.ToggledOffNeverMatches` | App.tsx:1309-1313 | a coupon switched off no longer matches any code at checkout |
| `Content.CreatedCouponRedeems` | App.tsx:1295-1307 | a new coupon is found under its upper-cased code unless an earlier active coupon has that code, and then it takes its percentage off |
| `Content.CreatedCouponIgnoresLowerCase` | App.tsx:1295-1307 | a code typed with a lower-case letter never finds the coupon created from it |
| `Storefront.App.constructor` | App.tsx:1961-1975 | starts on the home view with an empty cart, an empty search, no orders and no session, holding the product, category and user lists it is given |
| `Storefront.App.AddToCart` | App.tsx:1992-2000 | replaces the cart as `handleAddToCart` does, keeps it well formed and raises count by 1 and total by the unit price |
| `Storefront.App.RemoveFromCart` | App.tsx:2002-2004 | replaces the cart as `handleRemoveFromCart` does; exactly the lines with other ids remain |
| `Storefront.App.UpdateQuantity` | App.tsx:2006-2014 | replaces the cart as `handleUpdateQuantity` does; no line is removed and the cart stays well formed |
| `Storefront.App.Checkout` | App.tsx:2016-2031 | puts one `Pending` order with the cart, its total, the discount and the final total in front of the ledger, and empties the cart |
| `Storefront.App.Login` | App.tsx:2033-2041 | signs in and opens the landing view only on an exact match, after which the admin dashboard shows exactly for a non-customer; a failure changes nothing |
| `Storefront.App.Register` | App.tsx:2043-2055 | a taken email changes nothing; otherwise it appends one CUSTOMER account, signs it in, opens the home view, and that account can sign in |
| `Storefront.App.Logout` | App.tsx:2150 | clears the session and returns to the home view |
| `Storefront.App.SearchChange` | App.tsx:2252-2253 | the shop then lists exactly the products whose name or category matches the query, and the whole catalogue for an empty query |
| `Storefront.App.CategoryClick` | App.tsx:2057-2060 | opens the shop with the category as the query, listing every product of that category |
| `Storefront.App.AddCategory` | App.tsx:1235-1244 | appends the name exactly when it is non-empty and not yet listed |
| `Storefront.App.DeleteCategory` | App.tsx:2145 | the name is no longer listed |
| `Storefront.App.AddProduct` | App.tsx:2141 | appends the product |
| `Storefront.App.UpdateProduct` | App.tsx:2142 | replaces the products with the edited id; the list length is unchanged |
| `Storefront.App.DeleteProduct` | App.tsx:2143 | exactly the products with other ids remain |
| `Storefront.App.UpdateOrder` | App.tsx:2147 | replaces the orders with the edited id; the ledger length is unchanged |
| `Storefront.App.CreateUser` | App.tsx:1323-1338 | appends the account exactly when name, email and password are non-empty, with no duplicate check |
| `Storefront.App.DeleteUser` | App.tsx:2149 | exactly the accounts with other ids remain |
| `Storefront.CheckoutModal.constructor` | App.tsx:829-830 | the one modal of the App starts with an empty promo code and no discount |
| `Storefront.CheckoutModal.Rerender` | App.tsx:2301-2308 | a re-render sets the `total` and `coupons` props and keeps the promo code and the discount |
| `Storefront.CheckoutModal.Retotal` | App.tsx:2301-2308 | the corrected re-render: sets the props and re-applies the applied code to them, so the discount is current |
| `Storefront.CheckoutModal.EnterPromoCode` | App.tsx:956 | sets the promo code and keeps the discount |
| `Storefront.CheckoutModal.ApplyPromo` | App.tsx:840-848 | sets the discount from the entered code on the current props, records the code exactly when a coupon was found, and reports an invalid non-empty code |
| `Storefront.CheckoutModal.FinalTotalInRange` | App.tsx:840-850 | in every state, with percentages in 0..100 and a non-negative total at the time of applying, the discount lies between 0 and that total; the amount to pay lies between the current total less that earlier total and the current total, and it is at least 0 when the discount is current |
| `Storefront.SubmitCheckout` | App.tsx:852-855 | the recorded order's final total is its total less the modal's discount, whatever the modal's state; with in-range percentages it is at most the total, and at least 0 when the discount was computed on this total |
| `Scenarios.StaleDiscountCheckout` | App.tsx:829-855 | applying VELVET10 to 5000, ordering, then checking out 300 without re-applying records a discount of 500 and a final total of -200 |
| `Scenarios.RecomputedDiscountCheckout` | App.tsx:829-855 | with the corrected re-render the same steps record a discount of 30 and a final total of 270 |
| `Storefront.AdminDashboard.TabsFollowRole` | App.tsx:1341-1360 | the tab bar offers exactly the tabs `canAccess` allows for the user's role, and none to a customer |
| `Storefront.AdminDashboard.AddCoupon` | App.tsx:1295-1307 | appends an active, upper-cased coupon exactly when the code is non-empty |
| `Storefront.AdminDashboard.ToggleCoupon` | App.tsx:1309-1313 | flips the flag of the coupon at the index |
| `Storefront.AdminDashboard.DeleteCoupon` | App.tsx:1315-1321 | splices out the coupon at the index only when confirmed |
| `Storefront.AdminDashboard.AddReview` | App.tsx:1270-1285 | prepends the review exactly when name and comment are non-empty; an empty role becomes "Customer" |
| `Storefront.AdminDashboard.DeleteTestimonial` | App.tsx:1287-1293 | splices out the review at the index only when confirmed |
| `Fixtures.SeedCouponsAtCheckout` | constants.ts:226-229 | on the seed coupons, VELVET10 takes 10% off 5000 and off 300; the inactive WELCOME20 and the lower-case velvet10 take nothing off and are reported |
| `Fixtures.SeedShopManagerLogin` | constants.ts:78-84 | the seeded shop manager signs in with the seed password and lands on the admin view; a wrong password fails |

## Left out

- Rendering, styling, the marquees, carousels, modals' transitions, the navbar, footer and
  cart sidebar: presentation only.
- Timers (carousel, toast, modal delay) and the IntersectionObserver: time-driven UI effects.
- `FileReader` image upload, `alert`, `scrollTo`, the chart with dummy data, `Date.now()` and
  `new Date()`: browser and foreign calls. Ids, dates and confirmations are parameters.
- `services/geminiService.ts`: a network wrapper whose only logic is returning a fallback
  string. It is not part of this model.
- The site-configuration save (`handleSaveConfig`) and the deep editors for hero slides,
  featured categories and USPs: they copy form fields into the configuration one-to-one.
- The checkout form's required fields and the `CARD`/`BKASH` extras: the browser enforces
  these `required` attributes, not the code.
- The profit estimate and `parseFloat` of the price input: floating point. Prices,
  quantities and percentages are integers; the discount is an exact real, not an IEEE double.
- Case mapping covers ASCII letters only. Unicode case folding in `toLowerCase` and
  `toUpperCase` is not modelled.
- Shipping charge and free-shipping threshold of `constants.ts`: `App.tsx` never reads them.
- Storefront.AdminDashboard.ToggleCoupon: the source flips the flag on the coupon object,
  which is shared with the live site configuration. The model edits the draft list as a
  value, so it does not capture that the live configuration changes before saving.
- Storefront.CheckoutModal.Rerender: React's re-render is modelled as an explicit call, made
  whenever the cart total or the coupon list changes; the model does not enforce that callers
  make it.

## Findings

| source | as written | input that shows it | evidently intended | confidence | as-written member | corrected member |
|---|---|---|---|---|---|---|
| App.tsx:829-855 | the modal's `promoCode` and `discount` state lives as long as the App; closing the modal, placing an order or a new `total` prop neither resets nor recomputes it, so `finalTotal` subtracts a discount computed on an earlier cart total | seed coupons; apply VELVET10 to a 5000 cart and place the order; add a 300 line and submit without pressing Apply: the order records total 300, discount 500 and final total -200 | the discount always belongs to the total on display, so with percentages in 0..100 the amount to pay lies in 0..total | high (not executed) | `Scenarios.StaleDiscountCheckout` | `Storefront.CheckoutModal.Retotal` |

`Storefront.CheckoutModal.Rerender` is the re-render as the source performs it.
`Storefront.CheckoutModal.Retotal` is the corrected re-render: it re-applies the applied code
to the new props, so the modal stays current (`Current()`). `Storefront.CheckoutModal.FinalTotalInRange`
and `Storefront.SubmitCheckout` then bound the final total to 0..total.
`Scenarios.RecomputedDiscountCheckout` takes the same steps as the as-written scenario with
the corrected re-render, and the second order costs 270.
