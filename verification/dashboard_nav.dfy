/** The dashboard's side navigation: a fixed item table, the active item and the disabled links. */
module DashboardNav {
  import opened Wrappers
  import opened PizzaTypes

  datatype NavItem = NavItem(title: string, href: string, disabled: bool)

  const NavItems: seq<NavItem> := [
    NavItem("Dashboard", "/dashboard", false),
    NavItem("Pizza Orders", "/dashboard/orders", false),
    NavItem("Deliveries", "/dashboard/deliveries", true),
    NavItem("Analytics", "/dashboard/analytics", true),
    NavItem("Settings", "/dashboard/settings", true),
    NavItem("Help", "/dashboard/help", true)
  ]

  /** One rendered entry: its title, the link target, and whether it is active or disabled. */
  datatype NavLink = NavLink(title: string, link: string, active: bool, disabled: bool)

  function RenderItem(item: NavItem, pathname: string): NavLink {
    NavLink(item.title, if item.disabled then "#" else item.href, pathname == item.href, item.disabled)
  }

  /** Nothing without a user; otherwise one link per item, in table order. */
  function RenderNav(user: Option<User>, pathname: string): (r: Option<seq<NavLink>>)
    ensures r.None? <==> user.None?
    ensures r.Some? ==> |r.value| == |NavItems|
    ensures r.Some? ==> forall i :: 0 <= i < |NavItems| ==>
              && r.value[i].title == NavItems[i].title
              && (r.value[i].active <==> pathname == NavItems[i].href)
              && r.value[i].link == (if NavItems[i].disabled then "#" else NavItems[i].href)
              && r.value[i].disabled == NavItems[i].disabled
  {
    if user.None? then None
    else Some(seq(|NavItems|, i requires 0 <= i < |NavItems| => RenderItem(NavItems[i], pathname)))
  }

  /** Only the dashboard and the orders page are enabled. */
  lemma OnlyTwoEnabled()
    ensures forall i :: 0 <= i < |NavItems| ==>
              (!NavItems[i].disabled <==> NavItems[i].href in {"/dashboard", "/dashboard/orders"})
  {
  }

  /** The hrefs are distinct, so at most one link is active for any path. */
  lemma AtMostOneActive(user: Option<User>, pathname: string)
    ensures var r := RenderNav(user, pathname);
            r.Some? ==> forall i, j :: 0 <= i < j < |r.value| ==> !(r.value[i].active && r.value[j].active)
  {
    var r := RenderNav(user, pathname);
    if r.Some? {
      forall i, j | 0 <= i < j < |r.value| ensures NavItems[i].href != NavItems[j].href {
      }
    }
  }
}
