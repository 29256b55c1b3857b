/**
 * Navigation configuration (src/config/navigation.tsx, src/types/navigation.ts):
 * items, groups and the per-role filter, with the vendor dashboard's data.
 * Icons are left out.
 */
module NavigationConfig {
  import opened Wrappers
  import Js

  datatype Role = Admin | Vendor | Customer

  /** A badge is a number or a text. */
  datatype Badge = NumberBadge(n: Js.Number) | TextBadge(text: string)

  /** A navigation item; `items` holds the sub-items of a sidebar item. */
  datatype NavItem = NavItem(
    id: string,
    title: string,
    href: string,
    badge: Option<Badge>,
    disabled: Option<bool>,
    external: Option<bool>,
    roles: Option<seq<Role>>,
    description: Option<string>,
    items: Option<seq<NavItem>>)

  datatype NavGroup = NavGroup(id: string, title: Option<string>, items: seq<NavItem>, roles: Option<seq<Role>>)

  datatype Navigation = Navigation(mainNav: seq<NavItem>, sidebarNav: seq<NavGroup>, mobileNav: seq<NavItem>)

  /** `!roles || roles.includes(role)`: an absent list admits everyone, an empty one nobody. */
  predicate Visible(roles: Option<seq<Role>>, role: Role) {
    roles.None? || role in roles.value
  }

  /** `a` is `b` with some elements removed, the rest in their original order. */
  predicate IsSubsequence<T(==)>(a: seq<T>, b: seq<T>)
    decreases |b|
  {
    if |a| == 0 then true
    else if |b| == 0 then false
    else if a[0] == b[0] then IsSubsequence(a[1..], b[1..])
    else IsSubsequence(a, b[1..])
  }

  /** `xs.filter(keep)` */
  function Filter<T(==)>(xs: seq<T>, keep: T -> bool): (r: seq<T>)
    ensures |r| <= |xs|
    ensures forall i :: 0 <= i < |r| ==> keep(r[i]) && r[i] in xs
    ensures forall i :: 0 <= i < |xs| && keep(xs[i]) ==> xs[i] in r
    decreases |xs|
  {
    if |xs| == 0 then []
    else (if keep(xs[0]) then [xs[0]] else []) + Filter(xs[1..], keep)
  }

  /** The filter keeps the surviving elements in their original order. */
  lemma {:induction false} FilterIsSubsequence<T>(xs: seq<T>, keep: T -> bool)
    ensures IsSubsequence(Filter(xs, keep), xs)
    decreases |xs|
  {
    if |xs| > 0 {
      var rest := Filter(xs[1..], keep);
      FilterIsSubsequence(xs[1..], keep);
      if keep(xs[0]) {
        assert Filter(xs, keep) == [xs[0]] + rest;
        assert ([xs[0]] + rest)[1..] == rest;
      } else {
        assert Filter(xs, keep) == rest;
      }
    }
  }

  /** A list whose elements all pass is left unchanged. */
  lemma {:induction false} FilterAllKept<T>(xs: seq<T>, keep: T -> bool)
    requires forall i :: 0 <= i < |xs| ==> keep(xs[i])
    ensures Filter(xs, keep) == xs
    decreases |xs|
  {
    if |xs| > 0 {
      FilterAllKept(xs[1..], keep);
      assert [xs[0]] + xs[1..] == xs;
    }
  }

  /** Filtering twice with the same test equals filtering once. */
  lemma FilterIdempotent<T>(xs: seq<T>, keep: T -> bool)
    ensures Filter(Filter(xs, keep), keep) == Filter(xs, keep)
  {
    FilterAllKept(Filter(xs, keep), keep);
  }

  function ItemVisibleTo(role: Role): (r: NavItem -> bool) {
    (item: NavItem) => Visible(item.roles, role)
  }

  function GroupVisibleTo(role: Role): (r: NavGroup -> bool) {
    (group: NavGroup) => Visible(group.roles, role)
  }

  /** A kept group with its own items filtered; sub-items are not filtered. */
  function FilterGroupItems(group: NavGroup, role: Role): (r: NavGroup) {
    group.(items := Filter(group.items, ItemVisibleTo(role)))
  }

  function MapGroups(groups: seq<NavGroup>, role: Role): (r: seq<NavGroup>)
    ensures |r| == |groups|
    ensures forall i :: 0 <= i < |r| ==> r[i] == FilterGroupItems(groups[i], role)
    decreases |groups|
  {
    if |groups| == 0 then [] else [FilterGroupItems(groups[0], role)] + MapGroups(groups[1..], role)
  }

  /** filterNavByRole */
  function FilterNavByRole(nav: Navigation, role: Role): (r: Navigation)
    ensures forall i :: 0 <= i < |r.mainNav| ==> Visible(r.mainNav[i].roles, role)
    ensures forall i :: 0 <= i < |r.mobileNav| ==> Visible(r.mobileNav[i].roles, role)
    ensures forall item :: item in nav.mobileNav && item.roles.None? ==> item in r.mobileNav
    ensures forall item :: item in nav.mainNav && item.roles.None? ==> item in r.mainNav
    ensures forall g :: g in r.sidebarNav <==>
      exists h :: h in nav.sidebarNav && Visible(h.roles, role) && g == FilterGroupItems(h, role)
  {
    var kept := Filter(nav.sidebarNav, GroupVisibleTo(role));
    var groups := MapGroups(kept, role);
    assert forall g :: g in groups <==> exists h :: h in kept && g == FilterGroupItems(h, role) by {
      forall g | g in groups ensures exists h :: h in kept && g == FilterGroupItems(h, role) {
        var i :| 0 <= i < |groups| && groups[i] == g;
        assert kept[i] in kept;
      }
      forall g, h | h in kept && g == FilterGroupItems(h, role) ensures g in groups {
        var i :| 0 <= i < |kept| && kept[i] == h;
        assert groups[i] == g;
      }
    }
    Navigation(
      Filter(nav.mainNav, ItemVisibleTo(role)),
      groups,
      Filter(nav.mobileNav, ItemVisibleTo(role)))
  }

  /** Every output list is an order-preserving subsequence of its input. */
  lemma FilterNavKeepsOrder(nav: Navigation, role: Role)
    ensures IsSubsequence(FilterNavByRole(nav, role).mainNav, nav.mainNav)
    ensures IsSubsequence(FilterNavByRole(nav, role).mobileNav, nav.mobileNav)
    ensures forall i :: 0 <= i < |FilterNavByRole(nav, role).sidebarNav| ==>
      IsSubsequence(FilterNavByRole(nav, role).sidebarNav[i].items,
                    Filter(nav.sidebarNav, GroupVisibleTo(role))[i].items)
  {
    FilterIsSubsequence(nav.mainNav, ItemVisibleTo(role));
    FilterIsSubsequence(nav.mobileNav, ItemVisibleTo(role));
    var kept := Filter(nav.sidebarNav, GroupVisibleTo(role));
    forall i | 0 <= i < |kept| ensures IsSubsequence(FilterGroupItems(kept[i], role).items, kept[i].items) {
      FilterIsSubsequence(kept[i].items, ItemVisibleTo(role));
    }
  }

  /** Filtering by the same role twice gives the same navigation as filtering once. */
  lemma FilterNavIdempotent(nav: Navigation, role: Role)
    ensures FilterNavByRole(FilterNavByRole(nav, role), role) == FilterNavByRole(nav, role)
  {
    var once := FilterNavByRole(nav, role);
    FilterIdempotent(nav.mainNav, ItemVisibleTo(role));
    FilterIdempotent(nav.mobileNav, ItemVisibleTo(role));
    var kept := Filter(nav.sidebarNav, GroupVisibleTo(role));
    var groups := MapGroups(kept, role);
    assert forall i :: 0 <= i < |groups| ==> groups[i].roles == kept[i].roles;
    FilterAllKept(groups, GroupVisibleTo(role));
    forall i | 0 <= i < |groups| ensures FilterGroupItems(groups[i], role) == groups[i] {
      FilterIdempotent(kept[i].items, ItemVisibleTo(role));
    }
    assert MapGroups(groups, role) == groups;
  }

  // ------------------------------------------------------------ vendorNavigation

  function Link(id: string, title: string, href: string, description: Option<string>): (r: NavItem) {
    NavItem(id, title, href, None, None, None, None, description, None)
  }

  function VendorItem(id: string, title: string, href: string, description: string, items: Option<seq<NavItem>>): (r: NavItem) {
    NavItem(id, title, href, None, None, None, Some([Vendor]), Some(description), items)
  }

  const ProductsSubItems: seq<NavItem> := [
    Link("all-products", "All Products", "/dashboard/products", Some("View all products")),
    Link("add-product", "Add New", "/dashboard/products/create", Some("Create a new product")),
    Link("categories", "Categories", "/dashboard/products/categories", Some("Manage product categories")),
    Link("collections", "Collections", "/dashboard/products/collections", Some("Organize products into collections"))]

  const OrdersSubItems: seq<NavItem> := [
    Link("all-orders", "All Orders", "/dashboard/orders", None),
    Link("pending-orders", "Pending", "/dashboard/orders?status=pending", None),
    Link("fulfilled-orders", "Fulfilled", "/dashboard/orders?status=fulfilled", None)]

  const AnalyticsSubItems: seq<NavItem> := [
    Link("overview", "Overview", "/dashboard/analytics", None),
    Link("sales", "Sales", "/dashboard/analytics/sales", None),
    Link("traffic", "Traffic", "/dashboard/analytics/traffic", None)]

  const StoreSubItems: seq<NavItem> := [
    Link("appearance", "Appearance", "/dashboard/store/appearance", None),
    Link("pages", "Pages", "/dashboard/store/pages", None),
    Link("navigation", "Navigation", "/dashboard/store/navigation", None)]

  const SettingsSubItems: seq<NavItem> := [
    Link("general", "General", "/dashboard/settings", None),
    Link("billing", "Billing", "/dashboard/settings/billing", None),
    Link("integrations", "Integrations", "/dashboard/settings/integrations", None),
    Link("team", "Team", "/dashboard/settings/team", None)]

  const MainGroupItems: seq<NavItem> := [
    VendorItem("dashboard", "Dashboard", "/dashboard", "Overview and quick stats", None),
    VendorItem("products", "Products", "/dashboard/products", "Manage your digital products", Some(ProductsSubItems)),
    VendorItem("orders", "Orders", "/dashboard/orders", "Manage customer orders", Some(OrdersSubItems)),
    VendorItem("customers", "Customers", "/dashboard/customers", "View and manage customers", None),
    VendorItem("analytics", "Analytics", "/dashboard/analytics", "Sales and performance insights", Some(AnalyticsSubItems))]

  const StoreGroupItems: seq<NavItem> := [
    VendorItem("store-settings", "Store Settings", "/dashboard/store", "Customize your store", Some(StoreSubItems)),
    VendorItem("settings", "Settings", "/dashboard/settings", "Account and preferences", Some(SettingsSubItems))]

  const MainGroup: NavGroup := NavGroup("main", None, MainGroupItems, None)
  const StoreGroup: NavGroup := NavGroup("store", Some("Store"), StoreGroupItems, None)

  const VendorMobileNav: seq<NavItem> := [
    Link("dashboard", "Home", "/dashboard", None),
    Link("products", "Products", "/dashboard/products", None),
    Link("orders", "Orders", "/dashboard/orders", None),
    Link("more", "More", "/dashboard/settings", None)]

  /** The vendor dashboard's navigation. */
  const VendorNavigation: Navigation := Navigation([], [MainGroup, StoreGroup], VendorMobileNav)

  /** Helper: the filter written as its three parts. */
  lemma FilterNavParts(nav: Navigation, role: Role)
    ensures FilterNavByRole(nav, role) == Navigation(
      Filter(nav.mainNav, ItemVisibleTo(role)),
      MapGroups(Filter(nav.sidebarNav, GroupVisibleTo(role)), role),
      Filter(nav.mobileNav, ItemVisibleTo(role)))
  {
  }

  /** Helper: every sidebar item of the vendor dashboard is restricted to vendors. */
  lemma VendorOnlyItems()
    ensures forall i :: 0 <= i < |MainGroupItems| ==> MainGroupItems[i].roles == Some([Vendor])
    ensures forall i :: 0 <= i < |StoreGroupItems| ==> StoreGroupItems[i].roles == Some([Vendor])
  {
  }

  /** Helper: the groups and the mobile items carry no role list, so every role keeps them. */
  lemma UnrestrictedParts(role: Role)
    ensures Filter([MainGroup, StoreGroup], GroupVisibleTo(role)) == [MainGroup, StoreGroup]
    ensures Filter(VendorMobileNav, ItemVisibleTo(role)) == VendorMobileNav
  {
    FilterAllKept([MainGroup, StoreGroup], GroupVisibleTo(role));
    FilterAllKept(VendorMobileNav, ItemVisibleTo(role));
  }

  /** Helper: for any role the vendor navigation keeps both groups and the mobile bar. */
  lemma FilterVendorNavigation(role: Role)
    ensures FilterNavByRole(VendorNavigation, role)
      == Navigation([], MapGroups([MainGroup, StoreGroup], role), VendorMobileNav)
  {
    FilterNavParts(VendorNavigation, role);
    UnrestrictedParts(role);
  }

  /** A customer keeps both sidebar groups, each with no items, and the whole mobile bar. */
  lemma CustomerSeesEmptyVendorSidebar()
    ensures var r := FilterNavByRole(VendorNavigation, Customer);
      && r.mainNav == []
      && r.sidebarNav == [MainGroup.(items := []), StoreGroup.(items := [])]
      && r.mobileNav == VendorNavigation.mobileNav
  {
    FilterVendorNavigation(Customer);
    CustomerGroupsEmptied();
  }

  lemma CustomerGroupsEmptied()
    ensures MapGroups([MainGroup, StoreGroup], Customer) == [MainGroup.(items := []), StoreGroup.(items := [])]
  {
    VendorOnlyItems();
    NoneVisible(MainGroupItems, Customer);
    NoneVisible(StoreGroupItems, Customer);
  }

  /** A vendor keeps the whole vendor navigation. */
  lemma VendorSeesEverything()
    ensures FilterNavByRole(VendorNavigation, Vendor) == VendorNavigation
  {
    FilterVendorNavigation(Vendor);
    VendorGroupsKept();
  }

  lemma VendorGroupsKept()
    ensures MapGroups([MainGroup, StoreGroup], Vendor) == [MainGroup, StoreGroup]
  {
    VendorOnlyItems();
    FilterAllKept(MainGroupItems, ItemVisibleTo(Vendor));
    FilterAllKept(StoreGroupItems, ItemVisibleTo(Vendor));
  }

  /** Helper: items restricted to vendors all disappear for another role. */
  lemma {:induction false} NoneVisible(items: seq<NavItem>, role: Role)
    requires role != Vendor
    requires forall i :: 0 <= i < |items| ==> items[i].roles == Some([Vendor])
    ensures Filter(items, ItemVisibleTo(role)) == []
    decreases |items|
  {
    if |items| > 0 {
      NoneVisible(items[1..], role);
    }
  }
}
