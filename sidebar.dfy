/** The dashboard sidebar: the menu chosen by whether a token is stored,
    the active entry, navigation and logout. The tenant label it shows comes
    from the same rule as the subdomain hook (`SubdomainValidation.Subdomain`). */
module Sidebar {
  import opened Wrappers
  import opened Strings
  import SubdomainValidation

  datatype MenuItem = MenuItem(title: string, path: string)

  const AdminMenuItems: seq<MenuItem> := [
    MenuItem("Dashboard", "/dashboard"),
    MenuItem("Quotations", "/quotations"),
    MenuItem("Products", "/products"),
    MenuItem("Analytics", "/analytics"),
    MenuItem("Support", "/support")
  ]

  const UserMenuItems: seq<MenuItem> := [
    MenuItem("Home", "/"),
    MenuItem("Products", "/products"),
    MenuItem("Request Quote", "/request-quote"),
    MenuItem("My Quotations", "/my-quotations"),
    MenuItem("Profile", "/profile")
  ]

  /** The toasts the sidebar shows. */
  datatype SidebarNotice = LoggedOut | LogoutFailed

  /** The page the browser is sent to after a successful logout. */
  const LogoutRedirect: string := "https://quotely.shop/factory/login?logout=true"

  /** Any stored non-empty token makes the sidebar an admin one; the role
      claim is not consulted. */
  predicate IsAdmin(token: Option<string>) {
    Truthy(token)
  }

  function MenuItems(isAdmin: bool): seq<MenuItem> {
    if isAdmin then AdminMenuItems else UserMenuItems
  }

  predicate IsActive(pathname: string, item: MenuItem) {
    pathname == item.path
  }

  /** Both menus have five entries with pairwise distinct paths. */
  lemma MenuPathsDistinct(isAdmin: bool)
    ensures |MenuItems(isAdmin)| == 5
    ensures forall i, j :: 0 <= i < j < 5 ==> MenuItems(isAdmin)[i].path != MenuItems(isAdmin)[j].path
  {
  }

  /** At most one entry is highlighted for any path. */
  lemma AtMostOneActive(isAdmin: bool, pathname: string, i: nat, j: nat)
    requires i < j < |MenuItems(isAdmin)|
    ensures !(IsActive(pathname, MenuItems(isAdmin)[i]) && IsActive(pathname, MenuItems(isAdmin)[j]))
  {
    MenuPathsDistinct(isAdmin);
  }

  /** The sidebar's state and the browser state it touches. */
  class SidebarState {
    const hostname: string
    var storedToken: Option<string>
    var isAdmin: bool
    var href: string
    var pathname: string
    /** How many times the close callback has been called. */
    var closeCalls: nat
    /** Toasts shown so far, in order. */
    var notices: seq<SidebarNotice>

    constructor (hostname: string, storedToken: Option<string>, href: string, pathname: string)
      ensures this.hostname == hostname && this.storedToken == storedToken
      ensures !isAdmin && this.href == href && this.pathname == pathname && closeCalls == 0
      ensures notices == []
    {
      this.hostname := hostname;
      this.storedToken := storedToken;
      isAdmin := false;
      this.href := href;
      this.pathname := pathname;
      closeCalls := 0;
      notices := [];
    }

    /** The tenant label shown at the top, by the hook's rule: present
        exactly when the host name has a dot, and then free of dots. */
    function TenantLabel(): (tenant: Option<string>)
      ensures tenant.Some? <==> '.' in hostname
      ensures tenant.Some? ==> '.' !in tenant.value && tenant.value <= hostname
      ensures tenant.Some? ==> |tenant.value| < |hostname| && hostname[|tenant.value|] == '.'
    {
      SubdomainValidation.SubdomainIsTextBeforeFirstDot(hostname);
      SubdomainValidation.Subdomain(hostname)
    }

    /** The mount effect: admin exactly when a non-empty token is stored. */
    method SyncAdmin()
      modifies this`isAdmin
      ensures isAdmin == IsAdmin(storedToken)
    {
      var token := storedToken;
      if Truthy(token) {
        isAdmin := true;
      } else {
        isAdmin := false;
      }
    }

    /** handleLogout: once the logout request succeeded, a success toast,
        the token removed, admin cleared and the login page loaded; on
        failure only an error toast. */
    method HandleLogout(postSucceeded: bool)
      modifies this`storedToken, this`isAdmin, this`href, this`notices
      ensures postSucceeded ==>
        storedToken == None && !isAdmin && href == LogoutRedirect && notices == old(notices) + [LoggedOut]
      ensures !postSucceeded ==>
        && storedToken == old(storedToken) && isAdmin == old(isAdmin) && href == old(href)
        && notices == old(notices) + [LogoutFailed]
    {
      if postSucceeded {
        notices := notices + [LoggedOut];
        storedToken := None;
        isAdmin := false;
        href := LogoutRedirect;
      } else {
        notices := notices + [LogoutFailed];
      }
    }

    /** handleNavigation: go to `path`, then call the close callback if one
        was passed. */
    method HandleNavigation(path: string, hasCloseCallback: bool)
      modifies this`pathname, this`closeCalls
      ensures pathname == path
      ensures closeCalls == old(closeCalls) + (if hasCloseCallback then 1 else 0)
    {
      pathname := path;
      if hasCloseCallback {
        closeCalls := closeCalls + 1;
      }
    }

    /** The menu shown now. */
    function Menu(): seq<MenuItem>
      reads this
      ensures |Menu()| == 5
    {
      MenuItems(isAdmin)
    }
  }
}
