/**
 * The layout around every dashboard page: the token guard on mount, the
 * role's navigation items and which one is highlighted, the avatar and
 * heading, and logout.
 */
module DashboardLayout {
  import opened Wrappers
  import opened BrowserState
  import opened Seqs

  /** The `userRole` prop, `"host" | "attendee"`. */
  datatype Role = Host | Attendee

  function RoleName(role: Role): string
  {
    match role
    case Host => "host"
    case Attendee => "attendee"
  }

  datatype Icon = LayoutDashboardIcon | BarChartIcon

  datatype NavItem = NavItem(title: string, href: string, icon: Icon)

  const LoginRoute := "/auth/login"

  /**
   * `navItems`: the role's own dashboard first, for a host followed by the
   * analytics page. The hrefs, which are the React keys of the links, are
   * distinct.
   */
  function NavItems(role: Role): (items: seq<NavItem>)
    ensures |items| == if role == Host then 2 else 1
    ensures items[0] == NavItem("Dashboard", "/dashboard/" + RoleName(role), LayoutDashboardIcon)
    ensures role == Host ==> items[1] == NavItem("Analytics", "/dashboard/host/analytics", BarChartIcon)
    ensures forall i, j :: 0 <= i < j < |items| ==> items[i].href != items[j].href
  {
    var dashboard := NavItem("Dashboard", "/dashboard/" + RoleName(role), LayoutDashboardIcon);
    var extra := if role == Host then [NavItem("Analytics", "/dashboard/" + RoleName(role) + "/analytics", BarChartIcon)] else [];
    [dashboard] + extra
  }

  /** The highlight test of a link: the current path equals its href. */
  predicate IsActive(pathname: string, item: NavItem)
  {
    pathname == item.href
  }

  /** Because the hrefs are distinct, at most one navigation item is highlighted for any path. */
  lemma AtMostOneActive(role: Role, pathname: string, i: nat, j: nat)
    requires i < |NavItems(role)| && j < |NavItems(role)|
    requires IsActive(pathname, NavItems(role)[i]) && IsActive(pathname, NavItems(role)[j])
    ensures i == j
  {
  }

  /**
   * The navigation items drawn highlighted for the current path, in their
   * order: those whose href is the path, which is at most one of them, and
   * none on a path that is no item's href.
   */
  function ActiveItems(role: Role, pathname: string): (r: seq<NavItem>)
    ensures forall item :: item in r <==> item in NavItems(role) && IsActive(pathname, item)
    ensures |r| <= 1
    ensures (forall i :: 0 <= i < |NavItems(role)| ==> NavItems(role)[i].href != pathname) ==> r == []
  {
    var items := NavItems(role);
    var active := (item: NavItem) => IsActive(pathname, item);
    FilterAtMostOne(items, active);
    Filter(items, active)
  }

  /** The avatar's letter: "H" for a host, "A" for an attendee. */
  function AvatarLetter(role: Role): (letter: string)
    ensures role == Host ==> letter == "H"
    ensures role == Attendee ==> letter == "A"
  {
    if role == Host then "H" else "A"
  }

  /** The sidebar heading, naming the role's dashboard. */
  function Heading(role: Role): (heading: string)
    ensures role == Host ==> heading == "Host Dashboard"
    ensures role == Attendee ==> heading == "Attendee Dashboard"
  {
    if role == Host then "Host Dashboard" else "Attendee Dashboard"
  }

  /** The heading begins with the avatar's letter, and the two roles differ in both. */
  lemma AvatarMatchesHeading(role: Role, other: Role)
    ensures AvatarLetter(role) <= Heading(role)
    ensures role != other ==> AvatarLetter(role) != AvatarLetter(other) && Heading(role) != Heading(other)
  {
  }

  /** The layout's own state. */
  class Layout {
    const userRole: Role
    var isMounted: bool

    constructor (userRole: Role)
      ensures this.userRole == userRole && !isMounted
    {
      this.userRole := userRole;
      isMounted := false;
    }

    /** Before the mount effect has run nothing is rendered (`return null`). */
    predicate Renders()
      reads this
    {
      isMounted
    }

    /**
     * The mount effect: the layout is mounted, and when no token is stored
     * the router is sent to the login page. The token is only read.
     */
    method Mount(browser: Browser)
      modifies this, browser`history
      ensures isMounted && Renders()
      ensures browser.history == old(browser.history) + (if HasToken(browser.token) then [] else [LoginRoute])
    {
      isMounted := true;
      var token := browser.token;
      if !HasToken(token) {
        browser.history := browser.history + [LoginRoute];
      }
    }

    /**
     * `handleLogout`: the token is removed and the router goes to the login
     * page, so that the guard of every later mount fails.
     */
    method Logout(browser: Browser)
      modifies browser
      ensures browser.token == None && !HasToken(browser.token)
      ensures browser.history == old(browser.history) + [LoginRoute]
    {
      browser.token := None;
      browser.history := browser.history + [LoginRoute];
    }
  }
}
