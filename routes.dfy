/** The browser's route table: public pages, protected pages, and the lookups the router uses. */
module Routes {
  import opened Wrappers

  const LOGIN := "/login"
  const REGISTER := "/register"
  const FORGOT_PASSWORD := "/forgot-password"
  const RESET_PASSWORD := "/reset-password"
  const DASHBOARD := "/dashboard"
  const TRANSACTIONS := "/dashboard/transactions"
  const PROFILE := "/profile"
  const SETTINGS := "/settings"
  const HOME := "/"
  const NOT_FOUND := "/404"
  const DEFAULT_TITLE := "Finance Tracker"

  datatype Route = Route(path: string, title: string, description: string, isDefault: bool)

  /** Pages reachable only when signed out. */
  const PUBLIC_ROUTES: seq<Route> := [
    Route(LOGIN, "Login", "User login page", false),
    Route(REGISTER, "Register", "User registration page", false),
    Route(FORGOT_PASSWORD, "Forgot Password", "Password reset request page", false),
    Route(RESET_PASSWORD, "Reset Password", "Password reset page", false)
  ]

  /** Pages reachable only when signed in. */
  const PROTECTED_ROUTES: seq<Route> := [
    Route(DASHBOARD, "Dashboard", "Main dashboard page", true),
    Route(TRANSACTIONS, "Transactions", "Transaction management", false),
    Route(PROFILE, "Profile", "User profile management", false),
    Route(SETTINGS, "Settings", "Application settings", false)
  ]

  /** `find(route => route.isDefault)` */
  function FindDefault(rs: seq<Route>): (r: Option<Route>)
    ensures r.None? <==> forall x :: x in rs ==> !x.isDefault
    ensures r.Some? ==> r.value in rs && r.value.isDefault
  {
    if rs == [] then None
    else if rs[0].isDefault then Some(rs[0])
    else
      var r := FindDefault(rs[1..]);
      assert forall x :: x in rs ==> x == rs[0] || x in rs[1..];
      r
  }

  /** `find(route => route.path === pathname)` */
  function FindPath(rs: seq<Route>, path: string): (r: Option<Route>)
    ensures r.None? <==> forall x :: x in rs ==> x.path != path
    ensures r.Some? ==> r.value in rs && r.value.path == path
  {
    if rs == [] then None
    else if rs[0].path == path then Some(rs[0])
    else
      var r := FindPath(rs[1..], path);
      assert forall x :: x in rs ==> x == rs[0] || x in rs[1..];
      r
  }

  /** `getDefaultRoute`: the protected default page when signed in, the login page otherwise. */
  function GetDefaultRoute(isAuthenticated: bool): (r: string)
    ensures isAuthenticated ==> r == DASHBOARD
    ensures !isAuthenticated ==> r == LOGIN
  {
    if isAuthenticated then
      var d := FindDefault(PROTECTED_ROUTES);
      assert PROTECTED_ROUTES[0].isDefault;
      if d.Some? && d.value.path != "" then d.value.path else DASHBOARD
    else LOGIN
  }

  /** `isPublicRoute` */
  predicate IsPublicRoute(path: string) {
    FindPath(PUBLIC_ROUTES, path).Some?
  }

  /** `isProtectedRoute` */
  predicate IsProtectedRoute(path: string) {
    FindPath(PROTECTED_ROUTES, path).Some?
  }

  /** `getRouteTitle`: the configured title, or the application's name. */
  function GetRouteTitle(path: string): (r: string)
    ensures FindPath(PUBLIC_ROUTES + PROTECTED_ROUTES, path).Some? ==>
      r == FindPath(PUBLIC_ROUTES + PROTECTED_ROUTES, path).value.title
    ensures FindPath(PUBLIC_ROUTES + PROTECTED_ROUTES, path).None? ==> r == DEFAULT_TITLE
  {
    var route := FindPath(PUBLIC_ROUTES + PROTECTED_ROUTES, path);
    if route.Some? && route.value.title != "" then route.value.title else DEFAULT_TITLE
  }

  /** The public pages are exactly the four sign-in pages. */
  lemma PublicPaths(path: string)
    ensures IsPublicRoute(path) <==> path == LOGIN || path == REGISTER || path == FORGOT_PASSWORD || path == RESET_PASSWORD
  {
    assert PUBLIC_ROUTES[1..] == [PUBLIC_ROUTES[1], PUBLIC_ROUTES[2], PUBLIC_ROUTES[3]];
  }

  /** The protected pages are exactly the dashboard, transactions, profile and settings pages. */
  lemma ProtectedPaths(path: string)
    ensures IsProtectedRoute(path) <==> path == DASHBOARD || path == TRANSACTIONS || path == PROFILE || path == SETTINGS
  {
    assert PROTECTED_ROUTES[1..] == [PROTECTED_ROUTES[1], PROTECTED_ROUTES[2], PROTECTED_ROUTES[3]];
  }

  /** No page is both public and protected. */
  lemma AccessClasses(path: string)
    ensures !(IsPublicRoute(path) && IsProtectedRoute(path))
  {
    PublicPaths(path);
    ProtectedPaths(path);
    assert REGISTER[1] != SETTINGS[1];
  }

  /** The home and not-found paths are neither public nor protected. */
  lemma UnlistedPaths()
    ensures !IsPublicRoute(HOME) && !IsProtectedRoute(HOME)
    ensures !IsPublicRoute(NOT_FOUND) && !IsProtectedRoute(NOT_FOUND)
  {
    PublicPaths(HOME);
    ProtectedPaths(HOME);
    PublicPaths(NOT_FOUND);
    ProtectedPaths(NOT_FOUND);
  }

  /** Every configured page has its own title; any other path is titled with the application's name. */
  lemma Titles()
    ensures GetRouteTitle(LOGIN) == "Login" && GetRouteTitle(SETTINGS) == "Settings"
    ensures GetRouteTitle(HOME) == DEFAULT_TITLE && GetRouteTitle(NOT_FOUND) == DEFAULT_TITLE
  {
    var all := PUBLIC_ROUTES + PROTECTED_ROUTES;
    assert all[0].path == LOGIN;
    assert all[7].path == SETTINGS && forall k :: 0 <= k < 7 ==> all[k].path != SETTINGS;
    assert forall x :: x in all ==> x.path != HOME && x.path != NOT_FOUND;
  }
}
