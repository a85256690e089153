/** The side navigation: which links a user sees, and which of them is
    highlighted for the current location. */
module Sidebar {
  import opened Common
  import opened Lists

  /** A navigation link. `adminOnly` is absent (false) on the first three. */
  datatype NavItem = NavItem(name: string, href: string, icon: string, adminOnly: bool)

  /** The six links, in the order they are drawn. */
  const NavigationItems: seq<NavItem> := [
    NavItem("Dashboard", "/dashboard", "LayoutDashboard", false),
    NavItem("Customers", "/customers", "Users", false),
    NavItem("Tasks", "/tasks", "CheckSquare", false),
    NavItem("Workflows", "/workflows", "GitBranch", true),
    NavItem("Reports", "/reports", "BarChart3", true),
    NavItem("Settings", "/settings", "Settings", true)
  ]

  function ShownTo(isAdmin: bool): NavItem -> bool {
    (item: NavItem) => !item.adminOnly || isAdmin
  }

  /** `filteredNavigation`: the links that are not admin-only, or all of them
      for a super admin, in their drawing order. */
  function FilteredNavigation(isAdmin: bool): (r: seq<NavItem>)
    ensures Selects(r, NavigationItems, ShownTo(isAdmin))
  {
    FilterSelects(NavigationItems, ShownTo(isAdmin));
    Filter(NavigationItems, ShownTo(isAdmin))
  }

  /** A staff member sees Dashboard, Customers and Tasks, in that order. */
  lemma StaffSeesThreeLinks()
    ensures FilteredNavigation(false) == NavigationItems[..3]
    ensures |FilteredNavigation(false)| == 3
    ensures FilteredNavigation(false)[0].name == "Dashboard"
    ensures FilteredNavigation(false)[1].name == "Customers"
    ensures FilteredNavigation(false)[2].name == "Tasks"
  {
    var s := NavigationItems;
    var staff := ShownTo(false);
    var front, back := s[..3], s[3..];
    assert s == front + back;
    assert front == [s[0], s[1], s[2]];
    assert back == [s[3], s[4], s[5]];
    FilterKeepsAll(front, staff);
    FilterKeepsNone(back, staff);
    FilterConcat(front, back, staff);
  }

  /** A super admin sees all six links. */
  lemma AdminSeesAllLinks()
    ensures FilteredNavigation(true) == NavigationItems
  {
    FilterKeepsAll(NavigationItems, ShownTo(true));
  }

  /** The link is highlighted when the location is its target, or, except
      for the dashboard link, when the location begins with its target. */
  predicate IsActive(pathname: string, href: string) {
    pathname == href || (href != "/dashboard" && StartsWith(pathname, href))
  }

  /** The dashboard link is highlighted only on the dashboard itself. */
  lemma DashboardActiveOnlyOnExactMatch(pathname: string)
    ensures IsActive(pathname, "/dashboard") <==> pathname == "/dashboard"
  {
  }

  /** Any other link is highlighted exactly when its target is a prefix of
      the location, as raw text: `/customers-archive` highlights Customers. */
  lemma OtherLinksActiveOnPrefix(pathname: string, href: string)
    requires href != "/dashboard"
    ensures IsActive(pathname, href) <==> StartsWith(pathname, href)
    ensures IsActive("/customers-archive", "/customers")
    ensures IsActive("/customers/7", "/customers")
  {
    assert "/customers-archive"[..|"/customers"|] == "/customers";
    assert "/customers/7"[..|"/customers"|] == "/customers";
  }

  /** The links' targets differ in their first letter after the slash. */
  lemma FirstLetterIdentifiesLink(i: nat, j: nat)
    requires i < |NavigationItems| && j < |NavigationItems|
    requires NavigationItems[i].href[1] == NavigationItems[j].href[1]
    ensures i == j
  {
  }

  /** A highlighted link's target and the location agree on the letter
      after the slash. */
  lemma ActiveSharesFirstLetter(pathname: string, i: nat)
    requires i < |NavigationItems| && IsActive(pathname, NavigationItems[i].href)
    ensures |pathname| > 1 && pathname[1] == NavigationItems[i].href[1]
  {
    var h := NavigationItems[i].href;
    if pathname != h {
      assert pathname[..|h|][1] == h[1];
    }
  }

  /** No link's target begins with another's, so two highlighted links are
      the same link: at most one is highlighted for any location. */
  lemma AtMostOneActive(pathname: string, i: nat, j: nat)
    requires i < |NavigationItems| && j < |NavigationItems|
    ensures IsActive(pathname, NavigationItems[i].href) && IsActive(pathname, NavigationItems[j].href) ==> i == j
  {
    if IsActive(pathname, NavigationItems[i].href) && IsActive(pathname, NavigationItems[j].href) {
      ActiveSharesFirstLetter(pathname, i);
      ActiveSharesFirstLetter(pathname, j);
      FirstLetterIdentifiesLink(i, j);
    }
  }
}
