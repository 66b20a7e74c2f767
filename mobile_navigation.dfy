/**
 * The bottom tab bar shown on small screens: five tabs, each standing for a
 * route. The bar highlights the tab of the current route and reports the
 * route of a tab the user picks.
 */
module MobileNavigation {
  import opened Wrappers
  import App

  /** The routes of the five tabs, in tab order. */
  const Routes: seq<string> := ["/dashboard", "/listen", "/history", "/social", "/profile"]

  /** The tab labels, in the same order. */
  const Labels: seq<string> := ["Today", "Listen", "Archive", "Social", "Profile"]

  /** `getRouteIndex`: the highlighted tab; a route without a tab highlights the first. */
  function GetRouteIndex(route: string): (i: nat)
    ensures i < |Routes|
    ensures route in Routes ==> Routes[i] == route
    ensures route !in Routes ==> i == 0
  {
    match route
    case "/dashboard" => 0
    case "/listen" => 1
    case "/history" => 2
    case "/social" => 3
    case "/profile" => 4
    case _ => 0
  }

  /** Reading a tab's route back gives that tab: the routes and the tabs are in one-to-one correspondence. */
  lemma TabRoundTrip(i: nat)
    requires i < |Routes|
    ensures GetRouteIndex(Routes[i]) == i
  {
  }

  /**
   * `handleNavigationChange`: the argument given to `onNavigate`, which is
   * called for every change; an index outside the table reads `undefined`,
   * modelled as `None`.
   */
  function HandleNavigationChange(newValue: int): (route: Option<string>)
    ensures route.Some? <==> 0 <= newValue < |Routes|
    ensures route.Some? ==> route.value in Routes && GetRouteIndex(route.value) == newValue
  {
    if 0 <= newValue < |Routes| then Some(Routes[newValue]) else None
  }

  /**
   * Picking a tab and passing its route to the shell's navigate handler
   * highlights that tab; the page switches only for the three tabs the shell
   * has a page for, so "Listen" and "Social" keep the page shown before.
   */
  lemma PickTabHighlightsIt(s: App.Session, i: nat)
    requires i < |Routes|
    ensures HandleNavigationChange(i).Some?
    ensures GetRouteIndex(App.Navigate(s, HandleNavigationChange(i).value).currentRoute) == i
    ensures App.PageForRoute(Routes[i]).None? <==> i == 1 || i == 3
    ensures i == 1 || i == 3 ==> App.Navigate(s, Routes[i]).currentState == s.currentState
  {
  }
}
