/** The account sidebar (src/components/dashboard/DashboardSidebar.tsx): which navigation
    item is highlighted for a path, the avatar initials, and the logout button. */
module DashboardSidebar {
  import opened Wrappers
  import opened Types
  import opened Text
  import Helpers
  import AuthStore

  datatype NavItem = NavItem(href: string, caption: string, icon: string)

  const NavItems: seq<NavItem> := [
    NavItem("/dashboard", "Personal Information", "person"),
    NavItem("/orders", "Order History", "history"),
    NavItem("/settings", "Account Settings", "settings")
  ]

  /** An item is active on its own page and on every page below it. */
  predicate IsActive(pathname: string, href: string) {
    pathname == href || StartsWith(pathname, href + "/")
  }

  /** A page below `href` is one that starts with `href` followed by a slash; a mere
      textual extension of the item's path does not count. */
  lemma ActiveMeansBelow(pathname: string, href: string)
    ensures IsActive(pathname, href) <==>
      pathname == href || (|pathname| > |href| && pathname[..|href|] == href && pathname[|href|] == '/')
  {
    if |pathname| > |href| && pathname[..|href|] == href && pathname[|href|] == '/' {
      assert pathname[..|href| + 1] == href + "/";
    }
    if StartsWith(pathname, href + "/") {
      assert pathname[..|href|] == (href + "/")[..|href|];
      assert pathname[|href|] == (href + "/")[|href|];
    }
  }

  /** The three items' paths differ in their second character, so no path highlights
      two of them. */
  lemma AtMostOneActive(pathname: string, i: nat, j: nat)
    requires i < |NavItems| && j < |NavItems| && i != j
    ensures !(IsActive(pathname, NavItems[i].href) && IsActive(pathname, NavItems[j].href))
  {
    if IsActive(pathname, NavItems[i].href) && IsActive(pathname, NavItems[j].href) {
      ActiveMeansBelow(pathname, NavItems[i].href);
      ActiveMeansBelow(pathname, NavItems[j].href);
      assert false;
    }
  }

  lemma ActiveExamples()
    ensures IsActive("/dashboard", "/dashboard")
    ensures IsActive("/orders/42", "/orders")
    ensures !IsActive("/ordersx", "/orders")
    ensures !IsActive("/", "/orders")
  {
    assert ("/orders/42")[..8] == "/orders/";
    assert ("/ordersx")[..8] != "/orders/" by { assert ("/ordersx")[7] == 'x'; }
  }

  /** The rendered sidebar: the avatar text and the highlight of each item. */
  datatype Sidebar = Sidebar(avatar: string, fullName: string, email: string, active: seq<bool>)

  /** The avatar: the first character of each name, as typed (no case change). */
  function Avatar(u: User): (r: string)
    ensures |r| == |Helpers.FirstChar(u.firstName)| + |Helpers.FirstChar(u.lastName)|
    ensures u.firstName != [] ==> r[0] == u.firstName[0]
    ensures u.lastName != [] ==> r[|r| - 1] == u.lastName[0]
    ensures ToUpper(r) == Helpers.GetInitials(u.firstName, u.lastName)
  {
    Helpers.FirstChar(u.firstName) + Helpers.FirstChar(u.lastName)
  }

  /** Nothing is rendered without a user. */
  function Render(user: Option<User>, pathname: string): (r: Option<Sidebar>)
    ensures r.Some? <==> user.Some?
    ensures r.Some? ==> |r.value.active| == |NavItems|
    ensures r.Some? ==> forall i :: 0 <= i < |NavItems| ==>
      (r.value.active[i] <==> IsActive(pathname, NavItems[i].href))
  {
    match user
    case None => None
    case Some(u) =>
      Some(Sidebar(Avatar(u), u.firstName + " " + u.lastName, u.email,
                   seq(|NavItems|, i requires 0 <= i < |NavItems| => IsActive(pathname, NavItems[i].href))))
  }

  /** `handleLogout`: log out through the store, then go to the home page. */
  method HandleLogout(auth: AuthStore.AuthStore) returns (navigate: string)
    modifies auth, auth.tokens, auth.storage
    ensures auth.tokens.accessToken == None
    ensures auth.storage.items == AuthStore.ClearedSession(old(auth.storage.items))
    ensures auth.user == None && !auth.isAuthenticated && !auth.isLoading
    ensures navigate == "/"
  {
    auth.Logout();
    navigate := "/";
  }
}
