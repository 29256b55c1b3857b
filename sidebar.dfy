/**
 * One row of the dashboard sidebar (`NavItem` in the sidebar component):
 * which of the three branches renders, whether the row and its sub-items are
 * highlighted, whether a parent starts expanded, and the link attributes.
 * `isOpen` is the row's own state, passed in; icons and class names are left out.
 */
module Sidebar {
  import opened Wrappers
  import Text
  import PathMatch
  import NavigationConfig
  import BadgeView

  type NavItem = NavigationConfig.NavItem

  /** `pathname === href || pathname.startsWith(href + '/')` */
  predicate IsActive(pathname: string, item: NavItem) {
    PathMatch.IsAtOrUnder(pathname, item.href)
  }

  /** `items.some(sub => …active…)` */
  function AnySubActive(pathname: string, subs: seq<NavItem>): (r: bool)
    ensures r <==> exists i :: 0 <= i < |subs| && IsActive(pathname, subs[i])
    decreases |subs|
  {
    if |subs| == 0 then false
    else
      var rest := AnySubActive(pathname, subs[1..]);
      assert forall i :: 1 <= i < |subs| ==> subs[i] == subs[1..][i - 1];
      IsActive(pathname, subs[0]) || rest
  }

  /**
   * The initial value of `isOpen`: the path is exactly the item's href, or
   * some sub-item is active. An item that is only active by prefix does not count.
   */
  function InitiallyOpen(pathname: string, item: NavItem): (r: bool)
    ensures r <==> (pathname == item.href
      || (item.items.Some? && exists i :: 0 <= i < |item.items.value| && IsActive(pathname, item.items.value[i])))
  {
    if pathname == item.href then true
    else item.items.Some? && AnySubActive(pathname, item.items.value)
  }

  /** `item.items && item.items.length > 0` */
  predicate HasSubItems(item: NavItem) {
    item.items.Some? && |item.items.value| > 0
  }

  predicate IsDisabled(item: NavItem) { item.disabled == Some(true) }

  predicate IsExternal(item: NavItem) { item.external == Some(true) }

  datatype SubRow = SubRow(href: string, active: bool, badge: BadgeView.Output)

  /**
   * A rendered row. The title and the badge are shown only when the sidebar is
   * not collapsed; `subRows` is None when the collapsible content is not rendered.
   */
  datatype Row =
    | DisabledRow(titleShown: bool)
    | ParentRow(active: bool, open: bool, chevronDown: bool, badge: BadgeView.Output, subRows: Option<seq<SubRow>>)
    | LinkRow(href: string, active: bool, target: Option<string>, rel: Option<string>, badge: BadgeView.Output)

  function SubRows(pathname: string, subs: seq<NavItem>): (r: seq<SubRow>)
    ensures |r| == |subs|
    ensures forall i :: 0 <= i < |r| ==>
      r[i].href == subs[i].href
      && (r[i].active <==> IsActive(pathname, subs[i]))
      && r[i].badge == BadgeView.SubBadge(subs[i].badge)
    decreases |subs|
  {
    if |subs| == 0 then []
    else
      var row := SubRow(subs[0].href, IsActive(pathname, subs[0]), BadgeView.SubBadge(subs[0].badge));
      [row] + SubRows(pathname, subs[1..])
  }

  /** The row `NavItem` renders: disabled first, then parents with sub-items, then plain links. */
  function Render(pathname: string, item: NavItem, isCollapsed: bool, isOpen: bool): (r: Row)
    ensures r.DisabledRow? <==> IsDisabled(item)
    ensures r.ParentRow? <==> !IsDisabled(item) && HasSubItems(item)
    ensures r.LinkRow? <==> !IsDisabled(item) && !HasSubItems(item)
    ensures r.DisabledRow? ==> (r.titleShown <==> !isCollapsed)
    ensures r.ParentRow? ==> (r.open <==> !isCollapsed && isOpen) && r.chevronDown == isOpen
    ensures r.ParentRow? ==> (r.subRows.Some? <==> !isCollapsed)
    ensures r.ParentRow? && r.subRows.Some? ==> |r.subRows.value| == |item.items.value|
    ensures r.ParentRow? || r.LinkRow? ==> (r.active <==> IsActive(pathname, item))
    ensures r.LinkRow? ==> r.href == item.href
    ensures r.LinkRow? ==> (r.target == Some("_blank") <==> IsExternal(item)) && (r.target.None? <==> !IsExternal(item))
    ensures r.LinkRow? ==> (r.rel == Some("noopener noreferrer") <==> IsExternal(item)) && (r.rel.None? <==> !IsExternal(item))
    ensures (r.ParentRow? || r.LinkRow?) && isCollapsed ==> r.badge == BadgeView.Nothing
    ensures (r.ParentRow? || r.LinkRow?) && !isCollapsed ==> r.badge == BadgeView.AndBadge(item.badge)
  {
    var active := IsActive(pathname, item);
    var badge := if isCollapsed then BadgeView.Nothing else BadgeView.AndBadge(item.badge);
    if IsDisabled(item) then DisabledRow(!isCollapsed)
    else if HasSubItems(item) then
      ParentRow(active, !isCollapsed && isOpen, isOpen, badge,
        if isCollapsed then None else Some(SubRows(pathname, item.items.value)))
    else
      LinkRow(item.href, active,
        if IsExternal(item) then Some("_blank") else None,
        if IsExternal(item) then Some("noopener noreferrer") else None,
        badge)
  }

  /** A row that starts open for a path other than its own href has a highlighted sub-row. */
  lemma OpenParentShowsActiveSub(pathname: string, item: NavItem)
    requires HasSubItems(item) && !IsDisabled(item)
    requires InitiallyOpen(pathname, item) && pathname != item.href
    ensures var r := Render(pathname, item, false, true);
      r.open && r.subRows.Some? && exists i :: 0 <= i < |r.subRows.value| && r.subRows.value[i].active
  {
    var r := Render(pathname, item, false, true);
    var i :| 0 <= i < |item.items.value| && IsActive(pathname, item.items.value[i]);
    assert r.subRows.value == SubRows(pathname, item.items.value);
    assert r.subRows.value[i].active;
  }

  // ------------------------------------------------------------ on the vendor navigation

  /** "Store Settings" is highlighted below its href, yet starts closed where no sub-item matches. */
  lemma StoreRowActiveButClosed()
    ensures var store := NavigationConfig.StoreGroupItems[0];
      IsActive("/dashboard/store/domains", store) && !InitiallyOpen("/dashboard/store/domains", store)
  {
    var store := NavigationConfig.StoreGroupItems[0];
    var p := "/dashboard/store/domains";
    assert p[..|"/dashboard/store/"|] == "/dashboard/store/";
    forall i | 0 <= i < |store.items.value| ensures !IsActive(p, store.items.value[i]) {
      var h := store.items.value[i].href;
      assert p[17] == 'd' && h[17] != 'd';
      assert |h| + 1 > |p| || p[..|h| + 1][17] != (h + "/")[17];
    }
  }

  /** On the "Add New" page two sub-rows of "Products" are highlighted: "All Products" and "Add New". */
  lemma CreatePageHighlightsTwoSubRows()
    ensures var subs := SubRows("/dashboard/products/create", NavigationConfig.ProductsSubItems);
      subs[0].active && subs[1].active
  {
    var p := "/dashboard/products/create";
    assert p[..|"/dashboard/products/"|] == "/dashboard/products/";
  }

  /** A pathname carries no query string, so a sub-item whose href has one is never highlighted. */
  lemma QueryHrefNeverActive(pathname: string, sub: NavItem)
    requires '?' !in pathname && '?' in sub.href
    ensures !IsActive(pathname, sub)
  {
    var k :| 0 <= k < |sub.href| && sub.href[k] == '?';
    assert (sub.href + "/")[k] == '?';
  }

  lemma PendingOrdersNeverActive(pathname: string)
    requires '?' !in pathname
    ensures !IsActive(pathname, NavigationConfig.OrdersSubItems[1])
  {
    assert NavigationConfig.OrdersSubItems[1].href[17] == '?';
    QueryHrefNeverActive(pathname, NavigationConfig.OrdersSubItems[1]);
  }
}
