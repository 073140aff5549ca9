/** Role gating of the admin console: `canAccess` and the tab list built from it (App.tsx:1341-1360). */
module Access {
  import opened Types
  import opened Seqs

  datatype AdminTab =
    | Dashboard | Orders | Products | Categories | Reviews | StoreDesign | GeneralInfo | SystemConfig | Coupons | Users

  /** `ALL_TABS` in display order (App.tsx:1347-1358). */
  const AllTabs: seq<AdminTab> :=
    [Dashboard, Orders, Products, Categories, StoreDesign, GeneralInfo, SystemConfig, Reviews, Coupons, Users]

  /** `canAccess` (App.tsx:1341-1345); also the check before any tab's content is rendered (App.tsx:1434). */
  predicate CanAccess(role: UserRole, tab: AdminTab)
  {
    match role
    case SuperAdmin => true
    case ShopAdmin => tab == Dashboard || tab == Products || tab == Categories || tab == StoreDesign || tab == Orders
    case Customer => false
  }

  function Permits(role: UserRole): (r: AdminTab -> bool)
  {
    (t: AdminTab) => CanAccess(role, t)
  }

  /** `TABS` (App.tsx:1360): `ALL_TABS` filtered by `canAccess`. */
  function VisibleTabs(role: UserRole): (r: seq<AdminTab>)
  {
    Filter(AllTabs, Permits(role))
  }

  /** Every tab is listed. */
  lemma AllTabsComplete(tab: AdminTab)
    ensures tab in AllTabs
  {
  }

  /** A tab is shown exactly when the role may open it. */
  lemma {:induction false} VisibleIffAccess(role: UserRole, tab: AdminTab)
    ensures tab in VisibleTabs(role) <==> CanAccess(role, tab)
  {
    FilterMembers(AllTabs, Permits(role), tab);
  }

  /** A super admin sees every tab. */
  lemma {:induction false} SuperAdminSeesAll()
    ensures VisibleTabs(SuperAdmin) == AllTabs
  {
    FilterKeepsAll(AllTabs, Permits(SuperAdmin));
  }

  /** A shop admin sees exactly the dashboard, orders, products, categories and store design, in `ALL_TABS` order. */
  lemma {:induction false} ShopAdminTabs()
    ensures VisibleTabs(ShopAdmin) == [Dashboard, Orders, Products, Categories, StoreDesign]
  {
    var first: seq<AdminTab> := [Dashboard, Orders, Products, Categories, StoreDesign];
    var rest: seq<AdminTab> := [GeneralInfo, SystemConfig, Reviews, Coupons, Users];
    assert AllTabs == first + rest;
    FilterConcat(first, rest, Permits(ShopAdmin));
    ShopAdminKeeps(first);
    ShopAdminDrops(rest);
  }

  lemma {:induction false} ShopAdminKeeps(first: seq<AdminTab>)
    requires first == [Dashboard, Orders, Products, Categories, StoreDesign]
    ensures Filter(first, Permits(ShopAdmin)) == first
  {
    FilterKeepsAll(first, Permits(ShopAdmin));
  }

  lemma {:induction false} ShopAdminDrops(rest: seq<AdminTab>)
    requires rest == [GeneralInfo, SystemConfig, Reviews, Coupons, Users]
    ensures Filter(rest, Permits(ShopAdmin)) == []
  {
    FilterKeepsNone(rest, Permits(ShopAdmin));
  }

  /** A customer sees no admin tab at all. */
  lemma {:induction false} CustomerSeesNone()
    ensures VisibleTabs(Customer) == []
  {
    FilterKeepsNone(AllTabs, Permits(Customer));
  }
}
