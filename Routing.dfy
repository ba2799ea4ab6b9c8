/**
 * The route gate, the dashboard dispatcher and the route table of
 * src/App.tsx. A react-router `<Navigate to=p>` becomes the value
 * `Navigate(p)`; rendering a page becomes `Render(page)`.
 */
module Routing {
  import opened Wrappers
  import opened Session

  datatype Page = AuthPage | AdminDashboard | DriverDashboard | SupplierPortal | NotFound

  /** What `ProtectedRoute` returns: a redirect, or its children. */
  datatype Gate = RedirectTo(path: string) | RenderChildren

  /** JavaScript truthiness of the role cell: null and "" are falsy. */
  predicate Truthy(role: Option<string>) {
    role.Some? && role.value != ""
  }

  /** `allowedRoles.includes(role)` */
  predicate Includes(allowed: seq<Role>, role: string) {
    exists r :: r in allowed && RoleName(r) == role
  }

  function ProtectedRoute(isAuthenticated: bool, role: Option<string>, allowedRoles: Option<seq<Role>>): (g: Gate)
    ensures !isAuthenticated ==> g == RedirectTo("/auth")
    ensures isAuthenticated && allowedRoles.None? ==> g == RenderChildren
    ensures isAuthenticated && !Truthy(role) ==> g == RenderChildren
    ensures isAuthenticated && allowedRoles.Some? && Truthy(role) ==>
      (g == RenderChildren <==> Includes(allowedRoles.value, role.value)) &&
      (g != RenderChildren <==> g == RedirectTo("/dashboard"))
  {
    if !isAuthenticated then RedirectTo("/auth")
    else if allowedRoles.Some? && Truthy(role) && !Includes(allowedRoles.value, role.value) then RedirectTo("/dashboard")
    else RenderChildren
  }

  function DashboardRouter(role: Option<string>): (p: Page)
    ensures p == DriverDashboard <==> role == Some("driver")
    ensures p == SupplierPortal <==> role == Some("supplier")
    ensures p == AdminDashboard <==> role != Some("driver") && role != Some("supplier")
  {
    if role == Some("driver") then DriverDashboard
    else if role == Some("supplier") then SupplierPortal
    else AdminDashboard
  }

  /** The child of a protected route: a fixed page, or `<DashboardRouter />`. */
  datatype Child = Fixed(page: Page) | ByRole

  datatype RouteElement =
    | PublicPage(page: Page)
    | Guarded(allowedRoles: Option<seq<Role>>, child: Child)
    | RedirectRoute(to: string)

  datatype Route = Route(path: string, element: RouteElement)

  const RouteTable: seq<Route> := [
    Route("/auth", PublicPage(AuthPage)),
    Route("/dashboard", Guarded(None, ByRole)),
    Route("/", RedirectRoute("/dashboard")),
    Route("/fleet", Guarded(Some([Admin]), Fixed(AdminDashboard))),
    Route("/documents", Guarded(Some([Admin]), Fixed(AdminDashboard))),
    Route("/analytics", Guarded(Some([Admin]), Fixed(AdminDashboard))),
    Route("/alerts", Guarded(Some([Admin]), Fixed(AdminDashboard))),
    Route("/settings", Guarded(Some([Admin]), Fixed(AdminDashboard))),
    Route("/trips", Guarded(Some([Driver]), Fixed(DriverDashboard))),
    Route("/expenses", Guarded(Some([Driver]), Fixed(DriverDashboard))),
    Route("/profile", Guarded(Some([Driver]), Fixed(DriverDashboard))),
    Route("/bilties", Guarded(None, ByRole)),
    Route("*", PublicPage(NotFound))
  ]

  const AdminOnlyPaths: set<string> := {"/fleet", "/documents", "/analytics", "/alerts", "/settings"}
  const DriverOnlyPaths: set<string> := {"/trips", "/expenses", "/profile"}
  const ListedPaths: set<string> :=
    {"/auth", "/dashboard", "/", "/bilties", "*"} + AdminOnlyPaths + DriverOnlyPaths

  predicate PathMatches(pattern: string, path: string) {
    pattern == "*" || pattern == path
  }

  /** The element of the first route at or after index `i` whose pattern matches. */
  function MatchFrom(routes: seq<Route>, path: string, i: nat): Option<RouteElement>
    decreases |routes| - i
  {
    if i >= |routes| then None
    else if PathMatches(routes[i].path, path) then Some(routes[i].element)
    else MatchFrom(routes, path, i + 1)
  }

  /**
   * The first listed route that matches. react-router ranks routes by
   * specificity rather than by position; on this table the two agree,
   * because every pattern but "*" is a distinct static path and "*" ranks
   * below all of them (`PatternsDistinct`, `NoRouteShadowed`).
   */
  function Match(routes: seq<Route>, path: string): Option<RouteElement> {
    MatchFrom(routes, path, 0)
  }

  datatype Outcome = Navigate(to: string) | Render(page: Page) | Blank

  /** A `ProtectedRoute` around `page`: its redirect, or the page. */
  function Gated(g: Gate, page: Page): Outcome {
    match g
    case RedirectTo(t) => Navigate(t)
    case RenderChildren => Render(page)
  }

  /** What `<Routes>` shows for a path and a session. */
  function Resolve(path: string, s: AuthState): (o: Outcome)
    ensures path == "/auth" ==> o == Render(AuthPage)
    ensures path == "/" ==> o == Navigate("/dashboard")
    ensures path == "/dashboard" || path == "/bilties" ==>
      o == Gated(ProtectedRoute(s.isAuthenticated, s.role, None), DashboardRouter(s.role))
    ensures path in AdminOnlyPaths ==>
      o == Gated(ProtectedRoute(s.isAuthenticated, s.role, Some([Admin])), AdminDashboard)
    ensures path in DriverOnlyPaths ==>
      o == Gated(ProtectedRoute(s.isAuthenticated, s.role, Some([Driver])), DriverDashboard)
    ensures path !in ListedPaths || path == "*" ==> o == Render(NotFound)
  {
    MatchTable(path);
    match Match(RouteTable, path)
    case None => Blank
    case Some(PublicPage(p)) => Render(p)
    case Some(RedirectRoute(t)) => Navigate(t)
    case Some(Guarded(allowed, child)) =>
      match ProtectedRoute(s.isAuthenticated, s.role, allowed)
      case RedirectTo(t) => Navigate(t)
      case RenderChildren =>
        Render(match child case Fixed(p) => p case ByRole => DashboardRouter(s.role))
  }

  /** The table read from index 8 on: the driver-only paths, /bilties and the wildcard. */
  lemma {:induction false} MatchTail(path: string)
    ensures MatchFrom(RouteTable, path, 8) ==
      if path in DriverOnlyPaths then Some(Guarded(Some([Driver]), Fixed(DriverDashboard)))
      else if path == "/bilties" then Some(Guarded(None, ByRole))
      else Some(PublicPage(NotFound))
  {
    var t := RouteTable;
    assert MatchFrom(t, path, 12) == Some(PublicPage(NotFound));
    assert MatchFrom(t, path, 11) == if path == "/bilties" then Some(t[11].element) else MatchFrom(t, path, 12);
    assert MatchFrom(t, path, 10) == if path == "/profile" then Some(t[10].element) else MatchFrom(t, path, 11);
    assert MatchFrom(t, path, 9) == if path == "/expenses" then Some(t[9].element) else MatchFrom(t, path, 10);
    assert MatchFrom(t, path, 8) == if path == "/trips" then Some(t[8].element) else MatchFrom(t, path, 9);
  }

  /** The table read from index 3 on: the admin-only paths, then the tail. */
  lemma {:induction false} MatchMiddle(path: string)
    ensures MatchFrom(RouteTable, path, 3) ==
      if path in AdminOnlyPaths then Some(Guarded(Some([Admin]), Fixed(AdminDashboard)))
      else MatchFrom(RouteTable, path, 8)
  {
    var t := RouteTable;
    assert MatchFrom(t, path, 7) == if path == "/settings" then Some(t[7].element) else MatchFrom(t, path, 8);
    assert MatchFrom(t, path, 6) == if path == "/alerts" then Some(t[6].element) else MatchFrom(t, path, 7);
    assert MatchFrom(t, path, 5) == if path == "/analytics" then Some(t[5].element) else MatchFrom(t, path, 6);
    assert MatchFrom(t, path, 4) == if path == "/documents" then Some(t[4].element) else MatchFrom(t, path, 5);
    assert MatchFrom(t, path, 3) == if path == "/fleet" then Some(t[3].element) else MatchFrom(t, path, 4);
  }

  /** The element the table gives each path. */
  lemma {:induction false} MatchTable(path: string)
    ensures Match(RouteTable, path) ==
      if path == "/auth" then Some(PublicPage(AuthPage))
      else if path == "/dashboard" || path == "/bilties" then Some(Guarded(None, ByRole))
      else if path == "/" then Some(RedirectRoute("/dashboard"))
      else if path in AdminOnlyPaths then Some(Guarded(Some([Admin]), Fixed(AdminDashboard)))
      else if path in DriverOnlyPaths then Some(Guarded(Some([Driver]), Fixed(DriverDashboard)))
      else Some(PublicPage(NotFound))
  {
    var t := RouteTable;
    MatchMiddle(path);
    MatchTail(path);
    assert MatchFrom(t, path, 2) == if path == "/" then Some(t[2].element) else MatchFrom(t, path, 3);
    assert MatchFrom(t, path, 1) == if path == "/dashboard" then Some(t[1].element) else MatchFrom(t, path, 2);
    assert MatchFrom(t, path, 0) == if path == "/auth" then Some(t[0].element) else MatchFrom(t, path, 1);
  }

  /** The patterns of the table, in order. */
  const RoutePatterns: seq<string> :=
    ["/auth", "/dashboard", "/", "/fleet", "/documents", "/analytics", "/alerts", "/settings",
     "/trips", "/expenses", "/profile", "/bilties", "*"]

  /** Each pattern occurs once in the table, and `*` only last. */
  lemma PatternsDistinct()
    ensures |RoutePatterns| == |RouteTable|
    ensures forall i :: 0 <= i < |RouteTable| ==> RouteTable[i].path == RoutePatterns[i]
    ensures forall i, j :: 0 <= i < j < |RoutePatterns| ==> RoutePatterns[i] != RoutePatterns[j]
    ensures RoutePatterns[|RoutePatterns| - 1] == "*"
  {
  }

  /** No route hides another: each route is the one its own path selects. */
  lemma NoRouteShadowed(i: int)
    requires 0 <= i < |RouteTable|
    ensures Match(RouteTable, RouteTable[i].path) == Some(RouteTable[i].element)
  {
    MatchTable(RouteTable[i].path);
  }

  /** An unauthenticated visitor of any protected path is sent to /auth, whatever its allowed roles. */
  lemma UnauthenticatedGoesToAuth(path: string, s: AuthState)
    requires !s.isAuthenticated
    requires path in AdminOnlyPaths + DriverOnlyPaths + {"/dashboard", "/bilties"}
    ensures Resolve(path, s) == Navigate("/auth")
  {
    MatchTable(path);
  }

  /** The admin-only paths never render for a driver or a supplier. */
  lemma AdminPathsExcludeOthers(path: string, s: AuthState)
    requires path in AdminOnlyPaths
    requires s.role == Some("driver") || s.role == Some("supplier")
    ensures !Resolve(path, s).Render?
    ensures s.isAuthenticated ==> Resolve(path, s) == Navigate("/dashboard")
  {
    MatchTable(path);
  }

  /** The driver-only paths never render for an admin or a supplier. */
  lemma DriverPathsExcludeOthers(path: string, s: AuthState)
    requires path in DriverOnlyPaths
    requires s.role == Some("admin") || s.role == Some("supplier")
    ensures !Resolve(path, s).Render?
    ensures s.isAuthenticated ==> Resolve(path, s) == Navigate("/dashboard")
  {
    MatchTable(path);
  }

  /** An authenticated session whose role is the matching role gets the guarded page. */
  lemma GuardedPathsAdmitTheirRole(path: string, s: AuthState)
    requires s.isAuthenticated
    requires (path in AdminOnlyPaths && s.role == Some("admin")) || (path in DriverOnlyPaths && s.role == Some("driver"))
    ensures Resolve(path, s) == Render(if path in AdminOnlyPaths then AdminDashboard else DriverDashboard)
  {
    MatchTable(path);
    assert Includes([Admin], "admin") by { assert RoleName(Admin) == "admin"; }
    assert Includes([Driver], "driver") by { assert RoleName(Driver) == "driver"; }
  }

  /** The dashboard and bilties paths show the role's own dashboard once signed in. */
  lemma SharedPathsDispatchByRole(path: string, s: AuthState)
    requires path == "/dashboard" || path == "/bilties"
    requires s.isAuthenticated
    ensures Resolve(path, s) == Render(DashboardRouter(s.role))
  {
    MatchTable(path);
  }

  /** "/" always redirects to /dashboard, and any path the table does not list renders NotFound. */
  lemma RootAndUnlistedPaths(path: string, s: AuthState)
    ensures Resolve("/", s) == Navigate("/dashboard")
    ensures path !in ListedPaths ==> Resolve(path, s) == Render(NotFound)
  {
    MatchTable("/");
    MatchTable(path);
  }

  /** The wildcard route makes every path resolve to something. */
  lemma NeverBlank(path: string, s: AuthState)
    ensures Resolve(path, s) != Blank
  {
    MatchTable(path);
  }
}
