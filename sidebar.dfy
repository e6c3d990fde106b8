/** The navigation sidebar: which link is highlighted for the current
    route, where the open state comes from, and how wide the desktop bar
    is and whether its labels show. */
module SideBar {

  import opened Wrappers
  import opened Strings

  /** `isActive` of `SidebarLink`: a placeholder `#` never; otherwise the
      exact path, or any path the link's href is a string prefix of,
      except that the root `/` matches only itself. */
  predicate IsActive(href: string, pathname: string)
    ensures IsActive(href, pathname) ==> href != "#" && StartsWith(pathname, href)
  {
    href != "#" && (pathname == href || (href != "/" && StartsWith(pathname, href)))
  }

  /** The four cases of the active-route rule. */
  lemma IsActiveCases(href: string, pathname: string)
    ensures href == "#" ==> !IsActive(href, pathname)
    ensures href != "#" && pathname == href ==> IsActive(href, pathname)
    ensures href == "/" ==> (IsActive(href, pathname) <==> pathname == "/")
    ensures href != "#" && href != "/" ==> (IsActive(href, pathname) <==> StartsWith(pathname, href))
  {
    if href != "#" && href != "/" && pathname == href {
      assert pathname[..|href|] == pathname;
    }
  }

  /** The prefix test does not stop at path segments: `/prod` is active on
      `/products`, and a child route keeps its parent highlighted. */
  lemma PrefixNotSegmentBounded()
    ensures IsActive("/prod", "/products")
    ensures IsActive("/orders", "/orders/42")
    ensures !IsActive("/", "/orders")
  {
    assert "/products"[..5] == "/prod";
    assert "/orders/42"[..7] == "/orders";
  }

  /** `openProp !== undefined ? openProp : openState`, and the same choice
      for the setter: a value given by the parent wins over the sidebar's
      own state. */
  function PropOrState<T>(prop: Option<T>, state: T): (r: T)
    ensures prop.Some? ==> r == prop.value
    ensures prop.None? ==> r == state
  {
    if prop.Some? then prop.value else state
  }

  /** The provider's `animate = true`: animation is on unless the parent
      passes `false`. */
  function AnimateOf(prop: Option<bool>): (r: bool)
    ensures r <==> prop != Some(false)
  {
    prop.GetOr(true)
  }

  /** The animated width of the desktop bar. */
  function DesktopWidth(animate: bool, open: bool): string {
    if animate then (if open then "300px" else "60px") else "300px"
  }

  /** The animated `display` of a link's label. */
  function LabelDisplay(animate: bool, open: bool): string {
    if animate then (if open then "inline-block" else "none") else "inline-block"
  }

  /** The animated opacity of a link's label. */
  function LabelOpacity(animate: bool, open: bool): int {
    if animate then (if open then 1 else 0) else 1
  }

  /** The bar is narrow exactly when it animates and is closed, and the
      labels are hidden exactly then. */
  lemma CollapsedHidesLabels(animate: bool, open: bool)
    ensures DesktopWidth(animate, open) == "60px" <==> animate && !open
    ensures DesktopWidth(animate, open) == "300px" <==> !(animate && !open)
    ensures LabelDisplay(animate, open) == "none" <==> DesktopWidth(animate, open) == "60px"
    ensures LabelOpacity(animate, open) == 0 <==> DesktopWidth(animate, open) == "60px"
  {
  }

  /** A provider given neither `open` nor `animate` animates and starts
      closed, so the bar starts 60px wide with its labels hidden. */
  lemma UnconfiguredStartsCollapsed()
    ensures var animate, open := AnimateOf(None), PropOrState(None, false);
      DesktopWidth(animate, open) == "60px" && LabelDisplay(animate, open) == "none" &&
      LabelOpacity(animate, open) == 0
  {
  }
}
