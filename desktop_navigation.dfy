/**
 * The top bar shown on wide screens: three navigation buttons, a search
 * field and a user menu. The bar holds two pieces of state of its own, the
 * text typed into the search field and the element the user menu is
 * anchored to.
 */
module DesktopNavigation {
  import opened Wrappers
  import opened Strings
  import Uri
  import App

  /** The routes of the Dashboard, Archive and Profile buttons, in that order. */
  const NavButtons: seq<string> := ["/dashboard", "/history", "/profile"]

  /** A button is highlighted when the current route is exactly its route. */
  predicate IsActive(currentRoute: string, button: string) {
    currentRoute == button
  }

  /** At most one button is highlighted at a time. */
  lemma AtMostOneActive(currentRoute: string, i: nat, j: nat)
    requires i < |NavButtons| && j < |NavButtons|
    requires IsActive(currentRoute, NavButtons[i]) && IsActive(currentRoute, NavButtons[j])
    ensures i == j
  {
  }

  const SearchPrefix: string := "/history?search="

  /** The route a search goes to: the query is encoded as it was typed, surrounding spaces included. */
  function SearchRoute(query: string): (route: string)
    ensures |route| >= |SearchPrefix| && route[..|SearchPrefix|] == SearchPrefix
  {
    SearchPrefix + Uri.EncodeURIComponent(query)
  }

  /** `handleSearch`: the route passed to `onNavigate`, or `None` when the query is empty or only whitespace. */
  function Search(query: string): (route: Option<string>)
    ensures route.Some? <==> !IsBlank(query)
    ensures route.Some? ==> route.value == SearchRoute(query)
  {
    if !IsBlank(query) then Some(SearchRoute(query)) else None
  }

  /** The query can be read back from the search route, exactly as typed. */
  lemma SearchReadsBack(query: string)
    ensures Uri.DecodeURIComponent(SearchRoute(query)[|SearchPrefix|..]) == Some(query)
  {
    assert SearchRoute(query)[|SearchPrefix|..] == Uri.EncodeURIComponent(query);
    Uri.EncodeRoundTrip(query);
  }

  /**
   * A search route is none of the buttons' routes, so after a search no
   * button is highlighted; and the shell has no page for it, so the page
   * shown stays as it was.
   */
  lemma SearchActivatesNoButton(s: App.Session, query: string)
    ensures forall b | b in NavButtons :: !IsActive(SearchRoute(query), b)
    ensures App.PageForRoute(SearchRoute(query)).None?
    ensures App.Navigate(s, SearchRoute(query)).currentState == s.currentState
  {
    var r := SearchRoute(query);
    assert |r| >= 16;
  }

  /** The two user menu items. */
  datatype MenuItem = ProfileSettings | Logout

  /** What a menu item asks of the shell. */
  datatype Call = NavigateTo(route: string) | LogoutCall

  /** The call each menu item makes before the menu closes. */
  function ItemCall(item: MenuItem): (c: Call)
    ensures item == ProfileSettings <==> c == NavigateTo("/profile")
    ensures item == Logout <==> c == LogoutCall
  {
    match item
    case ProfileSettings => NavigateTo("/profile")
    case Logout => LogoutCall
  }

  class DesktopNavigationBar {
    var searchQuery: string
    var userMenuAnchor: Option<Anchor>

    constructor ()
      ensures searchQuery == "" && userMenuAnchor == None
    {
      searchQuery := "";
      userMenuAnchor := None;
    }

    /** The menu is open exactly while it has an anchor. */
    predicate MenuOpen()
      reads this
    {
      userMenuAnchor.Some?
    }

    /** `handleUserMenuOpen`: anchors the menu at the clicked avatar. */
    method HandleUserMenuOpen(anchor: Anchor)
      modifies this
      ensures userMenuAnchor == Some(anchor) && MenuOpen()
      ensures searchQuery == old(searchQuery)
    {
      userMenuAnchor := Some(anchor);
    }

    /** `handleUserMenuClose`. */
    method HandleUserMenuClose()
      modifies this
      ensures userMenuAnchor == None && !MenuOpen()
      ensures searchQuery == old(searchQuery)
    {
      userMenuAnchor := None;
    }

    /** Typing into the search field. */
    method SetSearchQuery(value: string)
      modifies this
      ensures searchQuery == value && userMenuAnchor == old(userMenuAnchor)
    {
      searchQuery := value;
    }

    /** Submitting the search form; the field keeps its text. */
    method HandleSearch() returns (route: Option<string>)
      ensures route == Search(searchQuery)
    {
      if !IsBlank(searchQuery) {
        route := Some(SearchPrefix + Uri.EncodeURIComponent(searchQuery));
      } else {
        route := None;
      }
    }

    /** A menu item: its call first, then the menu closes. */
    method HandleMenuItem(item: MenuItem) returns (call: Call)
      modifies this
      ensures call == ItemCall(item)
      ensures !MenuOpen() && searchQuery == old(searchQuery)
    {
      match item {
        case ProfileSettings => call := NavigateTo("/profile");
        case Logout => call := LogoutCall;
      }
      HandleUserMenuClose();
    }
  }
}
