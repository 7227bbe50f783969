/**
 * The dashboard shell: the navigation entries each role sees, the highlight
 * of the current entry, the redirect of signed-out visitors to the login
 * page and the sidebar's response to the window width.
 */
module Layout {
  import opened Wrappers

  datatype NavItem = NavItem(title: string, href: string)

  const ManagerNav: seq<NavItem> := [
    NavItem("Dashboard", "/dashboard"),
    NavItem("Teams", "/dashboard/teams"),
    NavItem("Projects", "/dashboard/projects"),
    NavItem("Check-in/out", "/dashboard/checkin"),
    NavItem("Comfort Tips", "/dashboard/tips"),
    NavItem("Reports", "/dashboard/reports")
  ]

  const MemberNav: seq<NavItem> := [
    NavItem("Dashboard", "/dashboard"),
    NavItem("Check-in/out", "/dashboard/checkin"),
    NavItem("Comfort Tips", "/dashboard/tips")
  ]

  predicate IsManagerRole(role: Option<string>) {
    role == Some("project_manager") || role == Some("admin")
  }

  /** `navItems` for `user?.role`; `None` is a signed-out visitor. */
  function NavItemsFor(role: Option<string>): (items: seq<NavItem>)
    ensures IsManagerRole(role) ==> items == ManagerNav
    ensures role == Some("member") ==> items == MemberNav
    ensures items == [] <==> !IsManagerRole(role) && role != Some("member")
    ensures forall item :: item in items ==> item in ManagerNav
  {
    if IsManagerRole(role) then ManagerNav
    else if role == Some("member") then MemberNav
    else []
  }

  /** Every page a member can reach from the menu is also on the managers' menu, in the same order. */
  lemma MemberNavIsSubsequenceOfManagerNav()
    ensures forall item :: item in MemberNav ==> item in ManagerNav
    ensures ManagerNav[0] == MemberNav[0] && ManagerNav[3] == MemberNav[1] && ManagerNav[4] == MemberNav[2]
  {
  }

  /** Teams, Projects and Reports are offered exactly to the two manager roles. */
  lemma ManagementPagesOnlyForManagers(role: Option<string>)
    ensures NavItem("Reports", "/dashboard/reports") in NavItemsFor(role) <==> IsManagerRole(role)
    ensures NavItem("Teams", "/dashboard/teams") in NavItemsFor(role) <==> IsManagerRole(role)
    ensures NavItem("Projects", "/dashboard/projects") in NavItemsFor(role) <==> IsManagerRole(role)
  {
    assert ManagerNav[5] == NavItem("Reports", "/dashboard/reports");
    assert ManagerNav[1] == NavItem("Teams", "/dashboard/teams");
    assert ManagerNav[2] == NavItem("Projects", "/dashboard/projects");
  }

  /** The role the backend treats as privileged, "manager", gets no menu entries at all. */
  lemma BackendManagerRoleHasNoMenu()
    ensures NavItemsFor(Some("manager")) == []
  {
  }

  /** `pathname === item.href`. */
  predicate IsActive(pathname: string, item: NavItem) {
    pathname == item.href
  }

  /** Whatever the role and the path, at most one menu entry is highlighted. */
  lemma AtMostOneActive(role: Option<string>, pathname: string)
    ensures forall i, j :: 0 <= i < j < |NavItemsFor(role)| ==>
              !(IsActive(pathname, NavItemsFor(role)[i]) && IsActive(pathname, NavItemsFor(role)[j]))
  {
    var items := NavItemsFor(role);
    forall i, j | 0 <= i < j < |items| ensures items[i].href != items[j].href {
      if IsManagerRole(role) {
        assert items == ManagerNav;
      } else {
        assert items == MemberNav;
      }
    }
  }

  /** A page nested below an entry, such as a team's own page, highlights no entry. */
  lemma NestedPathHighlightsNothing(role: Option<string>)
    ensures forall item :: item in NavItemsFor(role) ==> !IsActive("/dashboard/teams/1", item)
  {
  }

  /** The redirect effect: where the router is sent, if anywhere; `user` is `None` when it is `null`. */
  function RedirectTarget(isLoading: bool, user: Option<string>): (target: Option<string>)
    ensures target.Some? <==> !isLoading && user.None?
    ensures target.Some? ==> target.value == "/login"
  {
    if !isLoading && user.None? then Some("/login") else None
  }

  /** `window.innerWidth < 768`. */
  predicate IsMobileWidth(width: int) {
    width < 768
  }

  /** The sidebar state of the shell. */
  class SidebarState {
    var isMobile: bool
    var isSidebarOpen: bool

    /** The dark overlay drawn over the page behind an open mobile sidebar. */
    predicate ShowsOverlay()
      reads this
    {
      isMobile && isSidebarOpen
    }

    /** First render: desktop and open. */
    constructor ()
      ensures !isMobile && isSidebarOpen
    {
      isMobile := false;
      isSidebarOpen := true;
    }

    /**
     * The width check run on mount and on every resize, followed by the
     * effect that runs only when `isMobile` actually changed.
     */
    method Resize(width: int)
      modifies this
      ensures isMobile == IsMobileWidth(width)
      ensures isMobile != old(isMobile) ==> isSidebarOpen == !isMobile
      ensures isMobile == old(isMobile) ==> isSidebarOpen == old(isSidebarOpen)
    {
      var mobile := IsMobileWidth(width);
      if mobile != isMobile {
        isSidebarOpen := !mobile;
      }
      isMobile := mobile;
    }

    /** The close button and the overlay. */
    method Close()
      modifies this
      ensures !isSidebarOpen && isMobile == old(isMobile)
    {
      isSidebarOpen := false;
    }

    /** The menu button of the header. */
    method Open()
      modifies this
      ensures isSidebarOpen && isMobile == old(isMobile)
    {
      isSidebarOpen := true;
    }

    /** The collapse button of the desktop header. */
    method Toggle()
      modifies this
      ensures isSidebarOpen == !old(isSidebarOpen) && isMobile == old(isMobile)
    {
      isSidebarOpen := !isSidebarOpen;
    }
  }

  /** Opening the shell in a narrow window closes the sidebar; in a wide one it stays open. */
  method MountAt(width: int) returns (sidebar: SidebarState)
    ensures fresh(sidebar)
    ensures sidebar.isMobile == IsMobileWidth(width) && sidebar.isSidebarOpen == !IsMobileWidth(width)
    ensures !sidebar.ShowsOverlay()
  {
    sidebar := new SidebarState();
    sidebar.Resize(width);
  }
}
