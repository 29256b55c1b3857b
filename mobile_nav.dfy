/**
 * The mobile bottom bar: one link per item, highlighted and marked with
 * `aria-current="page"` when the path is at or under the item's href, with
 * the item's badge rendered through `&&`.
 */
module MobileNav {
  import opened Wrappers
  import PathMatch
  import NavigationConfig
  import BadgeView

  datatype Tab = Tab(href: string, active: bool, ariaCurrent: Option<string>, badge: BadgeView.Output)

  /** One tab of the bar. */
  function RenderTab(pathname: string, item: NavigationConfig.NavItem): (t: Tab)
    ensures t.href == item.href
    ensures t.active <==> PathMatch.IsAtOrUnder(pathname, item.href)
    ensures t.ariaCurrent == Some("page") <==> t.active
    ensures t.ariaCurrent.None? <==> !t.active
    ensures t.badge.BadgeElement? <==> item.badge.Some? && BadgeView.Truthy(item.badge.value)
  {
    var active := PathMatch.IsAtOrUnder(pathname, item.href);
    Tab(item.href, active, if active then Some("page") else None, BadgeView.AndBadge(item.badge))
  }

  /** `items.map(...)`: one tab per item, in order. */
  function Render(pathname: string, items: seq<NavigationConfig.NavItem>): (r: seq<Tab>)
    ensures |r| == |items|
    ensures forall i :: 0 <= i < |r| ==> r[i] == RenderTab(pathname, items[i])
    decreases |items|
  {
    if |items| == 0 then []
    else [RenderTab(pathname, items[0])] + Render(pathname, items[1..])
  }

  /** A tab whose href only shares a string prefix with the path is not marked current. */
  lemma SiblingTabNotCurrent(pathname: string, item: NavigationConfig.NavItem)
    requires |pathname| > |item.href| && pathname[..|item.href|] == item.href && pathname[|item.href|] != '/'
    ensures RenderTab(pathname, item).ariaCurrent.None?
  {
    PathMatch.SiblingDoesNotMatch(pathname, item.href);
  }

  /** On the vendor bar, a products page marks both "Home" and "Products" as the current page. */
  lemma ProductsPageMarksTwoTabs()
    ensures var tabs := Render("/dashboard/products", NavigationConfig.VendorMobileNav);
      tabs[0].ariaCurrent == Some("page") && tabs[1].ariaCurrent == Some("page")
      && tabs[2].ariaCurrent.None? && tabs[3].ariaCurrent.None?
  {
    var p := "/dashboard/products";
    assert p[..|"/dashboard/"|] == "/dashboard/";
    PathMatch.AtOrUnderIsSegmentPrefix(p, "/dashboard/orders");
    PathMatch.AtOrUnderIsSegmentPrefix(p, "/dashboard/settings");
  }
}
