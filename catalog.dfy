/**
 * The catalogue, ledger and account lists of the `App` component as the admin console edits
 * them (the `onUpdate*` / `onDelete*` callbacks, App.tsx:2141-2149), and the two read-only
 * filters: the shop search (App.tsx:1987-1990) and a customer's order history (App.tsx:980-983).
 */
module Catalog {
  import opened Types
  import opened Seqs
  import opened Text

  /** The search test of `filteredProducts`: the query occurs in the name or the category, ignoring case. */
  predicate MatchesQuery(p: Product, query: string)
  {
    Contains(Lower(p.name), Lower(query)) || Contains(Lower(p.category), Lower(query))
  }

  /** `filteredProducts` (App.tsx:1987-1990). */
  function FilteredProducts(products: seq<Product>, query: string): (r: seq<Product>)
  {
    Filter(products, (p: Product) => MatchesQuery(p, query))
  }

  /** `userOrders` (App.tsx:980-983): the orders whose checkout email equals the account's, ignoring case. */
  function UserOrders(orders: seq<Order>, email: string): (r: seq<Order>)
  {
    Filter(orders, (o: Order) => Lower(o.details.email) == Lower(email))
  }

  /** `onUpdateProduct` (App.tsx:2142): every product with the edited id is replaced. */
  function UpdateProduct(products: seq<Product>, p: Product): (r: seq<Product>)
  {
    Map(products, (pr: Product) => if pr.id == p.id then p else pr)
  }

  /** `onDeleteProduct` (App.tsx:2143). */
  function DeleteProduct(products: seq<Product>, id: string): (r: seq<Product>)
  {
    Filter(products, (p: Product) => p.id != id)
  }

  /** The check of `handleAddCategory` (App.tsx:1237): a non-empty name not already listed. */
  predicate CategoryAcceptable(categories: seq<Category>, name: Category)
  {
    name != "" && name !in categories
  }

  /** `onDeleteCategory` (App.tsx:2145); products that carry the name are left as they are. */
  function DeleteCategory(categories: seq<Category>, c: Category): (r: seq<Category>)
  {
    Filter(categories, (x: Category) => x != c)
  }

  /** `onUpdateOrder` (App.tsx:2147): every order with the edited id is replaced. */
  function UpdateOrder(orders: seq<Order>, o: Order): (r: seq<Order>)
  {
    Map(orders, (or: Order) => if or.id == o.id then o else or)
  }

  /** `onDeleteUser` (App.tsx:2149). */
  function DeleteUser(users: seq<User>, id: string): (r: seq<User>)
  {
    Filter(users, (u: User) => u.id != id)
  }

  ghost predicate UniqueProductIds(products: seq<Product>)
  {
    forall i, j :: 0 <= i < j < |products| ==> products[i].id != products[j].id
  }

  ghost predicate UniqueOrderIds(orders: seq<Order>)
  {
    forall i, j :: 0 <= i < j < |orders| ==> orders[i].id != orders[j].id
  }

  ghost predicate UniqueUserIds(users: seq<User>)
  {
    forall i, j :: 0 <= i < j < |users| ==> users[i].id != users[j].id
  }

  ghost predicate NoDuplicates(categories: seq<Category>)
  {
    forall i, j :: 0 <= i < j < |categories| ==> categories[i] != categories[j]
  }

  /** The search keeps exactly the products whose name or category contains the query, ignoring case. */
  lemma {:induction false} FilteredProductsMembers(products: seq<Product>, query: string, p: Product)
    ensures p in FilteredProducts(products, query) <==> p in products && MatchesQuery(p, query)
  {
    FilterMembers(products, (p: Product) => MatchesQuery(p, query), p);
  }

  /** An empty search shows the whole catalogue, in order. */
  lemma {:induction false} EmptyQueryShowsAll(products: seq<Product>)
    ensures FilteredProducts(products, "") == products
  {
    forall k | 0 <= k < |products| ensures MatchesQuery(products[k], "") {
      ContainsTrivial(Lower(products[k].name));
    }
    FilterKeepsAll(products, (p: Product) => MatchesQuery(p, ""));
  }

  /** Searching for a category name (as the category buttons do) finds every product of that category. */
  lemma {:induction false} CategoryQueryFindsCategory(products: seq<Product>, p: Product)
    requires p in products
    ensures p in FilteredProducts(products, p.category)
  {
    ContainsTrivial(Lower(p.category));
    FilteredProductsMembers(products, p.category, p);
  }

  /** A customer's history holds exactly the orders placed with their email, in any letter case. */
  lemma {:induction false} UserOrdersMembers(orders: seq<Order>, email: string, o: Order)
    ensures o in UserOrders(orders, email) <==> o in orders && Lower(o.details.email) == Lower(email)
  {
    FilterMembers(orders, (o: Order) => Lower(o.details.email) == Lower(email), o);
  }

  /** The history does not depend on the letter case of the account's email. */
  lemma {:induction false} UserOrdersIgnoresCase(orders: seq<Order>, email: string, other: string)
    requires Lower(email) == Lower(other)
    ensures UserOrders(orders, email) == UserOrders(orders, other)
  {
    FilterCongruent(orders, (o: Order) => Lower(o.details.email) == Lower(email),
                            (o: Order) => Lower(o.details.email) == Lower(other));
  }

  /** With unique ids, updating the product on position `k` replaces that entry and nothing else. */
  lemma {:induction false} UpdateProductReplacesOne(products: seq<Product>, p: Product, k: nat)
    requires UniqueProductIds(products) && k < |products| && products[k].id == p.id
    ensures UpdateProduct(products, p) == products[k := p]
  {
  }

  /** Updating keeps every id on its position, so unique ids stay unique. */
  lemma {:induction false} UpdateProductKeepsIds(products: seq<Product>, p: Product)
    requires UniqueProductIds(products)
    ensures |UpdateProduct(products, p)| == |products|
    ensures forall k :: 0 <= k < |products| ==> UpdateProduct(products, p)[k].id == products[k].id
    ensures UniqueProductIds(UpdateProduct(products, p))
  {
  }

  /** No product with the deleted id remains, and every other product stays. */
  lemma {:induction false} DeleteProductMembers(products: seq<Product>, id: string, p: Product)
    ensures p in DeleteProduct(products, id) <==> p in products && p.id != id
  {
    FilterMembers(products, (p: Product) => p.id != id, p);
  }

  /** With unique ids, deleting the product on position `k` removes that entry and keeps the order of the rest. */
  lemma {:induction false} DeleteProductRemovesOne(products: seq<Product>, k: nat)
    requires UniqueProductIds(products) && k < |products|
    ensures DeleteProduct(products, products[k].id) == products[..k] + products[k + 1..]
  {
    FilterDropsOne(products, (p: Product) => p.id != products[k].id, k);
  }

  /** A category passing the check of `handleAddCategory` keeps the list free of duplicates. */
  lemma {:induction false} AddCategoryKeepsNoDuplicates(categories: seq<Category>, name: Category)
    requires NoDuplicates(categories) && CategoryAcceptable(categories, name)
    ensures NoDuplicates(categories + [name])
  {
  }

  /** Deleting a category removes every occurrence of the name and keeps every other name. */
  lemma {:induction false} DeleteCategoryMembers(categories: seq<Category>, c: Category, x: Category)
    ensures x in DeleteCategory(categories, c) <==> x in categories && x != c
  {
    FilterMembers(categories, (y: Category) => y != c, x);
  }

  /** Without duplicates, deleting the category on position `k` removes just that entry. */
  lemma {:induction false} DeleteCategoryRemovesOne(categories: seq<Category>, k: nat)
    requires NoDuplicates(categories) && k < |categories|
    ensures DeleteCategory(categories, categories[k]) == categories[..k] + categories[k + 1..]
  {
    FilterDropsOne(categories, (x: Category) => x != categories[k], k);
  }

  /** Setting the status of order `k` (the status select, App.tsx:1544) changes only that order's status. */
  lemma {:induction false} SetOrderStatus(orders: seq<Order>, k: nat, s: OrderStatus)
    requires UniqueOrderIds(orders) && k < |orders|
    ensures UpdateOrder(orders, orders[k].(status := s)) == orders[k := orders[k].(status := s)]
  {
  }

  /** Updating keeps every order id on its position, so ids stay unique. */
  lemma {:induction false} UpdateOrderKeepsIds(orders: seq<Order>, o: Order)
    requires UniqueOrderIds(orders)
    ensures |UpdateOrder(orders, o)| == |orders|
    ensures forall k :: 0 <= k < |orders| ==> UpdateOrder(orders, o)[k].id == orders[k].id
    ensures UniqueOrderIds(UpdateOrder(orders, o))
  {
  }

  /** No account with the deleted id remains, and every other account stays. */
  lemma {:induction false} DeleteUserMembers(users: seq<User>, id: string, u: User)
    ensures u in DeleteUser(users, id) <==> u in users && u.id != id
  {
    FilterMembers(users, (u: User) => u.id != id, u);
  }

  /** With unique ids, deleting the account on position `k` removes just that entry. */
  lemma {:induction false} DeleteUserRemovesOne(users: seq<User>, k: nat)
    requires UniqueUserIds(users) && k < |users|
    ensures DeleteUser(users, users[k].id) == users[..k] + users[k + 1..]
  {
    FilterDropsOne(users, (u: User) => u.id != users[k].id, k);
  }
}
