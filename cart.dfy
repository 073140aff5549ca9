/**
 * The cart aggregator of the `App` component: the updaters handed to `setCart` by
 * `handleAddToCart`, `handleRemoveFromCart` and `handleUpdateQuantity`, and the derived
 * `cartCount` and `cartTotal`.
 */
module Cart {
  import opened Wrappers
  import opened Types
  import opened Seqs

  /** `item => item.id === id`: the test every cart handler uses to pick a line. */
  function IsLine(id: string): (r: CartItem -> bool)
  {
    (item: CartItem) => item.product.id == id
  }

  predicate HasId(cart: seq<CartItem>, id: string)
  {
    exists k :: 0 <= k < |cart| && cart[k].product.id == id
  }

  /** The cart holds at most one line per product id. */
  ghost predicate UniqueIds(cart: seq<CartItem>)
  {
    forall i, j :: 0 <= i < j < |cart| ==> cart[i].product.id != cart[j].product.id
  }

  ghost predicate PositiveQuantities(cart: seq<CartItem>)
  {
    forall k :: 0 <= k < |cart| ==> cart[k].quantity >= 1
  }

  /** What every sequence of cart handlers keeps true, starting from the empty cart. */
  ghost predicate WellFormed(cart: seq<CartItem>)
  {
    UniqueIds(cart) && PositiveQuantities(cart)
  }

  function Max(a: int, b: int): (r: int)
  {
    if a >= b then a else b
  }

  /** `handleAddToCart` (App.tsx:1992-2000). */
  function AddToCart(cart: seq<CartItem>, p: Product): (r: seq<CartItem>)
  {
    if Find(cart, IsLine(p.id)).Some? then
      Map(cart, (item: CartItem) => if item.product.id == p.id then item.(quantity := item.quantity + 1) else item)
    else
      cart + [CartItem(p, 1)]
  }

  /** `handleRemoveFromCart` (App.tsx:2002-2004). */
  function RemoveFromCart(cart: seq<CartItem>, id: string): (r: seq<CartItem>)
  {
    Filter(cart, (item: CartItem) => item.product.id != id)
  }

  /** `handleUpdateQuantity` (App.tsx:2006-2014): the quantity floor is 1, so no line is ever removed here. */
  function UpdateQuantity(cart: seq<CartItem>, id: string, delta: int): (r: seq<CartItem>)
  {
    Map(cart, (item: CartItem) => if item.product.id == id then item.(quantity := Max(1, item.quantity + delta)) else item)
  }

  function LineTotal(item: CartItem): (r: int)
  {
    item.product.price * item.quantity
  }

  /** `cartCount` (App.tsx:1984): the sum of the quantities. */
  function CartCount(cart: seq<CartItem>): (r: int)
  {
    if cart == [] then 0 else cart[0].quantity + CartCount(cart[1..])
  }

  /** `cartTotal` (App.tsx:1985): the sum of price times quantity. */
  function CartTotal(cart: seq<CartItem>): (r: int)
  {
    if cart == [] then 0 else LineTotal(cart[0]) + CartTotal(cart[1..])
  }

  /** The unit price `handleAddToCart` will charge for `p`: the stored line's price when the id is already in the cart. */
  function UnitPrice(cart: seq<CartItem>, p: Product): (r: int)
  {
    match Find(cart, IsLine(p.id))
    case Some(line) => line.product.price
    case None => p.price
  }

  lemma {:induction false} SumsConcat(a: seq<CartItem>, b: seq<CartItem>)
    ensures CartCount(a + b) == CartCount(a) + CartCount(b)
    ensures CartTotal(a + b) == CartTotal(a) + CartTotal(b)
  {
    if a == [] {
      assert a + b == b;
    } else {
      assert (a + b)[0] == a[0];
      assert (a + b)[1..] == a[1..] + b;
      SumsConcat(a[1..], b);
    }
  }

  /** Changing one line moves both sums by exactly that line's difference. */
  lemma {:induction false} SumsPointUpdate(a: seq<CartItem>, b: seq<CartItem>, k: nat)
    requires |a| == |b| && k < |a|
    requires forall j :: 0 <= j < |a| && j != k ==> a[j] == b[j]
    ensures CartCount(b) == CartCount(a) - a[k].quantity + b[k].quantity
    ensures CartTotal(b) == CartTotal(a) - LineTotal(a[k]) + LineTotal(b[k])
  {
    assert a == a[..k] + ([a[k]] + a[k + 1..]);
    assert b == b[..k] + ([b[k]] + b[k + 1..]);
    assert a[..k] == b[..k];
    assert a[k + 1..] == b[k + 1..];
    SumsConcat(a[..k], [a[k]] + a[k + 1..]);
    SumsConcat([a[k]], a[k + 1..]);
    SumsConcat(b[..k], [b[k]] + b[k + 1..]);
    SumsConcat([b[k]], b[k + 1..]);
    assert [a[k]][1..] == [] && [b[k]][1..] == [];
  }

  /** Adding a product whose id sits on line `k` alone increments that line and touches nothing else. */
  lemma {:induction false} AddToCartExisting(cart: seq<CartItem>, p: Product, k: nat)
    requires k < |cart| && cart[k].product.id == p.id
    requires forall j :: 0 <= j < |cart| && j != k ==> cart[j].product.id != p.id
    ensures AddToCart(cart, p) == cart[k := cart[k].(quantity := cart[k].quantity + 1)]
  {
    assert IsLine(p.id)(cart[k]);
  }

  /** Adding a product whose id is not in the cart appends one line of quantity 1. */
  lemma {:induction false} AddToCartNew(cart: seq<CartItem>, p: Product)
    requires !HasId(cart, p.id)
    ensures AddToCart(cart, p) == cart + [CartItem(p, 1)]
  {
    assert forall k :: 0 <= k < |cart| ==> !IsLine(p.id)(cart[k]);
  }

  /** Adding the same new product twice gives one line of quantity 2, never two lines. */
  lemma {:induction false} AddToCartTwice(cart: seq<CartItem>, p: Product)
    requires !HasId(cart, p.id)
    ensures AddToCart(AddToCart(cart, p), p) == cart + [CartItem(p, 2)]
  {
    AddToCartNew(cart, p);
    var once := cart + [CartItem(p, 1)];
    AddToCartExisting(once, p, |cart|);
    assert once[|cart| := CartItem(p, 2)] == cart + [CartItem(p, 2)];
  }

  /** `handleAddToCart` keeps the cart well formed: one line per id, every quantity at least 1. */
  lemma {:induction false} AddToCartWellFormed(cart: seq<CartItem>, p: Product)
    requires WellFormed(cart)
    ensures WellFormed(AddToCart(cart, p))
    ensures |AddToCart(cart, p)| == if HasId(cart, p.id) then |cart| else |cart| + 1
  {
    if HasId(cart, p.id) {
      var k :| 0 <= k < |cart| && cart[k].product.id == p.id;
      AddToCartExisting(cart, p, k);
    } else {
      AddToCartNew(cart, p);
    }
  }

  /**
   * `cartCount` rises by exactly 1 and `cartTotal` by exactly the unit price charged: the stored
   * line's price when the product is already in the cart, which is `p.price` unless the line is stale.
   */
  lemma {:induction false} AddToCartSums(cart: seq<CartItem>, p: Product)
    requires UniqueIds(cart)
    ensures CartCount(AddToCart(cart, p)) == CartCount(cart) + 1
    ensures CartTotal(AddToCart(cart, p)) == CartTotal(cart) + UnitPrice(cart, p)
    ensures (forall k :: 0 <= k < |cart| && cart[k].product.id == p.id ==> cart[k].product.price == p.price)
            ==> CartTotal(AddToCart(cart, p)) == CartTotal(cart) + p.price
  {
    if HasId(cart, p.id) {
      var k :| 0 <= k < |cart| && cart[k].product.id == p.id;
      AddToCartSumsExisting(cart, p, k);
    } else {
      AddToCartNew(cart, p);
      SumsConcat(cart, [CartItem(p, 1)]);
      assert [CartItem(p, 1)][1..] == [];
    }
  }

  lemma {:induction false} AddToCartSumsExisting(cart: seq<CartItem>, p: Product, k: nat)
    requires UniqueIds(cart) && k < |cart| && cart[k].product.id == p.id
    ensures UnitPrice(cart, p) == cart[k].product.price
    ensures CartCount(AddToCart(cart, p)) == CartCount(cart) + 1
    ensures CartTotal(AddToCart(cart, p)) == CartTotal(cart) + cart[k].product.price
  {
    AddToCartExisting(cart, p, k);
    FindFirst(cart, IsLine(p.id), k);
    var bumped := cart[k].(quantity := cart[k].quantity + 1);
    LineTotalBump(cart[k]);
    SumsPointUpdate(cart, cart[k := bumped], k);
  }

  lemma LineTotalBump(line: CartItem)
    ensures LineTotal(line.(quantity := line.quantity + 1)) == LineTotal(line) + line.product.price
  {
    assert line.product.price * (line.quantity + 1) == line.product.price * line.quantity + line.product.price;
  }

  /** Removing keeps exactly the lines with a different id. */
  lemma {:induction false} RemoveFromCartMembers(cart: seq<CartItem>, id: string, line: CartItem)
    ensures line in RemoveFromCart(cart, id) <==> line in cart && line.product.id != id
  {
    FilterMembers(cart, (item: CartItem) => item.product.id != id, line);
  }

  /** After removing, no line with the id is left. */
  lemma {:induction false} RemoveFromCartClearsId(cart: seq<CartItem>, id: string)
    ensures !HasId(RemoveFromCart(cart, id), id)
  {
    var r := RemoveFromCart(cart, id);
    forall k | 0 <= k < |r| ensures r[k].product.id != id {
      RemoveFromCartMembers(cart, id, r[k]);
    }
  }

  /** Removing preserves the relative order of the remaining lines. */
  lemma {:induction false} RemoveFromCartConcat(a: seq<CartItem>, b: seq<CartItem>, id: string)
    ensures RemoveFromCart(a + b, id) == RemoveFromCart(a, id) + RemoveFromCart(b, id)
  {
    FilterConcat(a, b, (item: CartItem) => item.product.id != id);
  }

  /** Removing an id that is not in the cart changes nothing. */
  lemma {:induction false} RemoveFromCartAbsent(cart: seq<CartItem>, id: string)
    requires !HasId(cart, id)
    ensures RemoveFromCart(cart, id) == cart
  {
    FilterKeepsAll(cart, (item: CartItem) => item.product.id != id);
  }

  /** In a well-formed cart, removing the id on line `k` deletes exactly that line and its contribution to the sums. */
  lemma {:induction false} RemoveFromCartPresent(cart: seq<CartItem>, id: string, k: nat)
    requires UniqueIds(cart) && k < |cart| && cart[k].product.id == id
    ensures RemoveFromCart(cart, id) == cart[..k] + cart[k + 1..]
    ensures CartCount(RemoveFromCart(cart, id)) == CartCount(cart) - cart[k].quantity
    ensures CartTotal(RemoveFromCart(cart, id)) == CartTotal(cart) - LineTotal(cart[k])
  {
    FilterDropsOne(cart, (item: CartItem) => item.product.id != id, k);
    assert cart == cart[..k] + ([cart[k]] + cart[k + 1..]);
    SumsConcat(cart[..k], [cart[k]] + cart[k + 1..]);
    SumsConcat([cart[k]], cart[k + 1..]);
    SumsConcat(cart[..k], cart[k + 1..]);
    assert [cart[k]][1..] == [];
  }

  /** `handleRemoveFromCart` keeps the cart well formed. */
  lemma {:induction false} RemoveFromCartWellFormed(cart: seq<CartItem>, id: string)
    requires WellFormed(cart)
    ensures WellFormed(RemoveFromCart(cart, id))
  {
    if HasId(cart, id) {
      var k :| 0 <= k < |cart| && cart[k].product.id == id;
      RemoveFromCartPresent(cart, id, k);
      var r := cart[..k] + cart[k + 1..];
      forall i | 0 <= i < |r| ensures r[i] == cart[if i < k then i else i + 1] {
      }
    } else {
      RemoveFromCartAbsent(cart, id);
    }
  }

  /**
   * Every line keeps its product and position; the lines with `id` get `max(1, quantity + delta)`,
   * the others keep their quantity.
   */
  lemma {:induction false} UpdateQuantityLines(cart: seq<CartItem>, id: string, delta: int)
    ensures |UpdateQuantity(cart, id, delta)| == |cart|
    ensures forall k :: 0 <= k < |cart| ==>
      UpdateQuantity(cart, id, delta)[k].product == cart[k].product &&
      UpdateQuantity(cart, id, delta)[k].quantity ==
        (if cart[k].product.id == id then Max(1, cart[k].quantity + delta) else cart[k].quantity)
    ensures forall k :: 0 <= k < |cart| && cart[k].product.id == id ==> UpdateQuantity(cart, id, delta)[k].quantity >= 1
  {
  }

  /** `handleUpdateQuantity` keeps the cart well formed: no quantity falls below 1. */
  lemma {:induction false} UpdateQuantityWellFormed(cart: seq<CartItem>, id: string, delta: int)
    requires WellFormed(cart)
    ensures WellFormed(UpdateQuantity(cart, id, delta))
  {
    UpdateQuantityLines(cart, id, delta);
  }

  /** In a well-formed cart, updating line `k` moves the sums by that line's change alone. */
  lemma {:induction false} UpdateQuantitySums(cart: seq<CartItem>, id: string, delta: int, k: nat)
    requires UniqueIds(cart) && k < |cart| && cart[k].product.id == id
    ensures UpdateQuantity(cart, id, delta) == cart[k := cart[k].(quantity := Max(1, cart[k].quantity + delta))]
    ensures CartCount(UpdateQuantity(cart, id, delta)) == CartCount(cart) - cart[k].quantity + Max(1, cart[k].quantity + delta)
    ensures CartTotal(UpdateQuantity(cart, id, delta)) ==
      CartTotal(cart) - LineTotal(cart[k]) + cart[k].product.price * Max(1, cart[k].quantity + delta)
  {
    var r := UpdateQuantity(cart, id, delta);
    UpdateQuantityLines(cart, id, delta);
    SumsPointUpdate(cart, r, k);
  }

  /** Updating an id that is not in the cart changes nothing. */
  lemma {:induction false} UpdateQuantityAbsent(cart: seq<CartItem>, id: string, delta: int)
    requires !HasId(cart, id)
    ensures UpdateQuantity(cart, id, delta) == cart
  {
  }
}
