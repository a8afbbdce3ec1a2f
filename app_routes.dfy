/**
 * The application's route table: two public pages, a layout route at "/"
 * guarded by a role-free route guard, child pages of which two add their own
 * role guard, an index redirect and a catch-all redirect. Paths are matched
 * as React Router matches them: ASCII letters without regard to case, and
 * any number of trailing slashes accepted.
 */
module AppRoutes {
  import opened Common
  import ProtectedRoute
  import Sidebar

  /** What a route renders once its guards have admitted the visitor. */
  datatype Element = Page(component: string) | Navigate(to: string)

  /** The guards wrapping a route, outermost first, and the element inside them. */
  datatype Route = Route(guards: seq<seq<string>>, element: Element)

  /** What the visitor ends up with. */
  datatype Screen = Shows(page: string) | RedirectsTo(target: string) | AccessDenied

  const UsersRoles: seq<string> := [RoleName(GovernmentAdmin), RoleName(ServiceProviderAdmin)]
  const SystemStatusRoles: seq<string> := [RoleName(GovernmentAdmin)]

  /** Paths of the layout's children that admit any logged-in role, with their pages. */
  const OpenChildren: map<string, string> := map[
    "/dashboard" := "Dashboard",
    "/indicators/car" := "CarIndicator",
    "/indicators/cycle" := "CycleIndicator",
    "/indicators/bus" := "BusIndicator",
    "/indicators/train" := "TrainIndicator",
    "/indicators/tram" := "TramIndicator",
    "/indicators/pedestrian" := "PedestrianIndicator",
    "/indicators/events" := "EventsIndicator",
    "/indicators/construction" := "ConstructionIndicator",
    "/simulation" := "SimulationCenter",
    "/notifications" := "NotificationCenter"
  ]

  /** Every path the table names, besides the catch-all. */
  predicate Declared(path: string) {
    path in {"/login", "/register", "/", "/users", "/system-status"} || path in OpenChildren
  }

  predicate IsUpperAscii(c: char) {
    'A' <= c <= 'Z'
  }

  function LowerAscii(c: char): (d: char)
    ensures !IsUpperAscii(d)
    ensures d == '/' <==> c == '/'
    ensures !IsUpperAscii(c) ==> d == c
  {
    if IsUpperAscii(c) then (c as int + 32) as char else c
  }

  function Lower(s: string): (r: string)
    ensures |r| == |s|
    ensures forall i :: 0 <= i < |s| ==> r[i] == LowerAscii(s[i])
  {
    seq(|s|, i requires 0 <= i < |s| => LowerAscii(s[i]))
  }

  /** The path without its trailing slashes. */
  function TrimTrailingSlashes(s: string): (r: string)
    ensures r <= s
    ensures r == [] || r[|r| - 1] != '/'
    ensures forall i :: |r| <= i < |s| ==> s[i] == '/'
  {
    if s != [] && s[|s| - 1] == '/' then TrimTrailingSlashes(s[..|s| - 1]) else s
  }

  /**
   * The table entry a location's pathname is looked up under: trailing
   * slashes dropped and ASCII letters lower-cased; a path of slashes only
   * is the root.
   */
  function MatchKey(path: string): string {
    var t := TrimTrailingSlashes(path);
    if t == [] then (if path == [] then [] else "/") else Lower(t)
  }

  /** A path the table could name other than the root: non-empty, no trailing slash, no upper-case letter. */
  predicate Canonical(p: string) {
    p != [] && p[|p| - 1] != '/' && forall i :: 0 <= i < |p| ==> !IsUpperAscii(p[i])
  }

  /**
   * React Router's test of a pathname against a lower-case route path with
   * the case-insensitive flag: the route path, letter for letter up to ASCII
   * case, followed by any number of slashes.
   */
  predicate RouterMatches(pattern: string, path: string) {
    |pattern| <= |path|
    && (forall i :: 0 <= i < |pattern| ==> LowerAscii(path[i]) == pattern[i])
    && (forall i :: |pattern| <= i < |path| ==> path[i] == '/')
  }

  /** A canonical path is its own key. */
  lemma CanonicalFixed(p: string)
    requires Canonical(p)
    ensures MatchKey(p) == p
  {
    assert TrimTrailingSlashes(p) == p;
    assert Lower(p) == p;
  }

  /** Dropping trailing slashes stops at the last character that is not one. */
  lemma {:induction false} TrimKept(u: string, path: string)
    requires u <= path && (u == [] || u[|u| - 1] != '/')
    requires forall i :: |u| <= i < |path| ==> path[i] == '/'
    ensures TrimTrailingSlashes(path) == u
    decreases |path|
  {
    if |path| > |u| {
      assert path[..|path| - 1][..|u|] == path[..|u|];
      TrimKept(u, path[..|path| - 1]);
    }
  }

  /** A key is its own key, so looking a path up twice changes nothing. */
  lemma MatchKeyIdempotent(path: string)
    ensures MatchKey(MatchKey(path)) == MatchKey(path)
  {
    var t := TrimTrailingSlashes(path);
    if t == [] {
      if path != [] {
        assert MatchKey("/") == "/";
      }
    } else {
      CanonicalFixed(Lower(t));
    }
  }

  /** The key agrees with React Router: a pathname reaches a route path exactly when its key is that path. */
  lemma RouterAgrees(pattern: string, path: string)
    requires Canonical(pattern) || pattern == "/"
    ensures RouterMatches(pattern, path) <==> MatchKey(path) == pattern
  {
    var t := TrimTrailingSlashes(path);
    if RouterMatches(pattern, path) {
      if pattern == "/" {
        TrimKept([], path);
      } else {
        var u := path[..|pattern|];
        TrimKept(u, path);
        assert Lower(u) == pattern;
      }
    }
    if MatchKey(path) == pattern && t != [] {
      assert forall i :: 0 <= i < |pattern| ==> path[i] == t[i];
    }
  }

  /** Upper-case letters in a pathname make no difference. */
  lemma MatchKeyIgnoresCase(path: string)
    ensures MatchKey(Lower(path)) == MatchKey(path)
  {
    var t := TrimTrailingSlashes(path);
    var lp, lt := Lower(path), Lower(t);
    assert lp[..|t|] == lt;
    assert lt == [] || lt[|lt| - 1] != '/';
    assert forall i :: |lt| <= i < |lp| ==> lp[i] == '/';
    TrimKept(lt, lp);
    if t != [] {
      assert Lower(lt) == lt;
    }
  }

  /** A trailing slash on a non-empty pathname makes no difference. */
  lemma MatchKeyIgnoresTrailingSlash(path: string)
    requires path != []
    ensures MatchKey(path + "/") == MatchKey(path)
  {
    var t := TrimTrailingSlashes(path);
    assert (path + "/")[..|t|] == t;
    TrimKept(t, path + "/");
  }

  /** Every open child path is its own key. */
  lemma OpenPathsFixed(k: string)
    requires k in OpenChildren
    ensures MatchKey(k) == k
  {
    if k in {"/dashboard", "/indicators/car", "/indicators/cycle"} {
      OpenPathsFixed1(k);
    } else if k in {"/indicators/bus", "/indicators/train", "/indicators/tram"} {
      OpenPathsFixed2(k);
    } else if k in {"/indicators/pedestrian", "/indicators/events", "/indicators/construction"} {
      OpenPathsFixed3(k);
    } else if k in {"/simulation", "/notifications"} {
      OpenPathsFixed4(k);
    }
  }

  /** The two role-guarded paths are their own keys. */
  lemma RestrictedPathsFixed()
    ensures MatchKey("/users") == "/users" && MatchKey("/system-status") == "/system-status"
  {
    CanonicalFixed("/users");
    CanonicalFixed("/system-status");
  }

  // Proof helpers for OpenPathsFixed, a few paths each to keep every proof small.

  lemma OpenPathsFixed1(k: string)
    requires k in {"/dashboard", "/indicators/car", "/indicators/cycle"}
    ensures MatchKey(k) == k
  {
    if k == "/dashboard" {
      CanonicalFixed("/dashboard");
    } else if k == "/indicators/car" {
      CanonicalFixed("/indicators/car");
    } else if k == "/indicators/cycle" {
      CanonicalFixed("/indicators/cycle");
    }
  }

  lemma OpenPathsFixed2(k: string)
    requires k in {"/indicators/bus", "/indicators/train", "/indicators/tram"}
    ensures MatchKey(k) == k
  {
    if k == "/indicators/bus" {
      CanonicalFixed("/indicators/bus");
    } else if k == "/indicators/train" {
      CanonicalFixed("/indicators/train");
    } else if k == "/indicators/tram" {
      CanonicalFixed("/indicators/tram");
    }
  }

  lemma OpenPathsFixed3(k: string)
    requires k in {"/indicators/pedestrian", "/indicators/events", "/indicators/construction"}
    ensures MatchKey(k) == k
  {
    if k == "/indicators/pedestrian" {
      CanonicalFixed("/indicators/pedestrian");
    } else if k == "/indicators/events" {
      CanonicalFixed("/indicators/events");
    } else if k == "/indicators/construction" {
      CanonicalFixed("/indicators/construction");
    }
  }

  lemma OpenPathsFixed4(k: string)
    requires k in {"/simulation", "/notifications"}
    ensures MatchKey(k) == k
  {
    if k == "/simulation" {
      CanonicalFixed("/simulation");
    } else if k == "/notifications" {
      CanonicalFixed("/notifications");
    }
  }

  /** The route table, looked up by key. */
  function Select(key: string): Route {
    if key == "/login" then Route([], Page("Login"))
    else if key == "/register" then Route([], Page("Register"))
    else if key == "/" then Route([ProtectedRoute.DefaultAllowedRoles], Navigate("/dashboard"))
    else if key == "/users" then Route([ProtectedRoute.DefaultAllowedRoles, UsersRoles], Page("UserManagement"))
    else if key == "/system-status" then Route([ProtectedRoute.DefaultAllowedRoles, SystemStatusRoles], Page("SystemStatus"))
    else if key in OpenChildren then Route([ProtectedRoute.DefaultAllowedRoles], Page(OpenChildren[key]))
    else Route([], Navigate("/dashboard"))
  }

  /** The route a pathname selects. */
  function Match(path: string): (r: Route)
    ensures !Declared(MatchKey(path)) ==> r == Route([], Navigate("/dashboard"))
    ensures MatchKey(path) in OpenChildren ==> r == Route([ProtectedRoute.DefaultAllowedRoles], Page(OpenChildren[MatchKey(path)]))
    ensures MatchKey(path) == "/users" ==> r == Route([ProtectedRoute.DefaultAllowedRoles, UsersRoles], Page("UserManagement"))
    ensures MatchKey(path) == "/system-status" ==> r == Route([ProtectedRoute.DefaultAllowedRoles, SystemStatusRoles], Page("SystemStatus"))
  {
    Select(MatchKey(path))
  }

  /** Runs the guards outermost first; the first one that does not admit decides. */
  function Pass(guards: seq<seq<string>>, element: Element, isAuthenticated: bool, userRole: Option<string>): Screen
    decreases |guards|
  {
    if guards == [] then
      match element
      case Page(c) => Shows(c)
      case Navigate(to) => RedirectsTo(to)
    else
      match ProtectedRoute.Decide(isAuthenticated, userRole, guards[0])
      case RedirectToLogin => RedirectsTo("/login")
      case Deny => AccessDenied
      case Allow => Pass(guards[1..], element, isAuthenticated, userRole)
  }

  /** The screen one navigation to `path` produces. */
  function Visit(path: string, isAuthenticated: bool, userRole: Option<string>): Screen {
    var r := Match(path);
    Pass(r.guards, r.element, isAuthenticated, userRole)
  }

  /** Under a single role-free guard the element is reached exactly when logged in. */
  lemma PassLayout(element: Element, isAuthenticated: bool, userRole: Option<string>)
    ensures Pass([ProtectedRoute.DefaultAllowedRoles], element, isAuthenticated, userRole) ==
      if isAuthenticated then Pass([], element, isAuthenticated, userRole) else RedirectsTo("/login")
  {
    assert [ProtectedRoute.DefaultAllowedRoles][1..] == [];
  }

  /** Under the layout guard and one role guard: login redirect, then denial, then the element. */
  lemma PassNested(roles: seq<string>, element: Element, isAuthenticated: bool, userRole: Option<string>)
    requires roles != []
    ensures Pass([ProtectedRoute.DefaultAllowedRoles, roles], element, isAuthenticated, userRole) ==
      if !isAuthenticated then RedirectsTo("/login")
      else if ProtectedRoute.Includes(roles, userRole) then Pass([], element, isAuthenticated, userRole)
      else AccessDenied
  {
    var gs := [ProtectedRoute.DefaultAllowedRoles, roles];
    assert gs[1..] == [roles];
    assert [roles][1..] == [];
  }

  /** A pathname is visited as its key: case and trailing slashes never change the screen. */
  lemma VisitByKey(path: string, isAuthenticated: bool, userRole: Option<string>)
    ensures Visit(path, isAuthenticated, userRole) == Visit(MatchKey(path), isAuthenticated, userRole)
    ensures Visit(Lower(path), isAuthenticated, userRole) == Visit(path, isAuthenticated, userRole)
    ensures path != [] ==> Visit(path + "/", isAuthenticated, userRole) == Visit(path, isAuthenticated, userRole)
  {
    MatchKeyIdempotent(path);
    MatchKeyIgnoresCase(path);
    if path != [] {
      MatchKeyIgnoresTrailingSlash(path);
    }
  }

  /** The login and registration pages need no session. */
  lemma PublicRoutesOpen(path: string, isAuthenticated: bool, userRole: Option<string>)
    requires MatchKey(path) == "/login" || MatchKey(path) == "/register"
    ensures MatchKey(path) == "/login" ==> Visit(path, isAuthenticated, userRole) == Shows("Login")
    ensures MatchKey(path) == "/register" ==> Visit(path, isAuthenticated, userRole) == Shows("Register")
  {
  }

  /** Every route under the layout sends a visitor without a session to the login page. */
  lemma LayoutRequiresSession(path: string, userRole: Option<string>)
    requires var k := MatchKey(path); k == "/" || k == "/users" || k == "/system-status" || k in OpenChildren
    ensures Visit(path, false, userRole) == RedirectsTo("/login")
  {
    var r := Match(path);
    var k := MatchKey(path);
    if k == "/users" || k == "/system-status" {
      PassNested(r.guards[1], r.element, false, userRole);
    } else {
      PassLayout(r.element, false, userRole);
    }
  }

  /** The index route and any undeclared path lead to the dashboard. */
  lemma RedirectsToDashboard(path: string, isAuthenticated: bool, userRole: Option<string>)
    requires MatchKey(path) == "/" || !Declared(MatchKey(path))
    ensures isAuthenticated || !Declared(MatchKey(path)) ==> Visit(path, isAuthenticated, userRole) == RedirectsTo("/dashboard")
  {
    if MatchKey(path) == "/" {
      PassLayout(Navigate("/dashboard"), isAuthenticated, userRole);
    }
  }

  /** The user-management page is shown exactly to logged-in government and service-provider administrators. */
  lemma UsersRouteGuard(path: string, userRole: Option<string>)
    requires MatchKey(path) == "/users"
    ensures Visit(path, true, userRole) == Shows("UserManagement") <==>
      userRole == Some(RoleName(GovernmentAdmin)) || userRole == Some(RoleName(ServiceProviderAdmin))
    ensures Visit(path, true, userRole) != Shows("UserManagement") ==> Visit(path, true, userRole) == AccessDenied
  {
    PassNested(UsersRoles, Page("UserManagement"), true, userRole);
  }

  /** The system-status page is shown exactly to logged-in government administrators. */
  lemma SystemStatusRouteGuard(path: string, userRole: Option<string>)
    requires MatchKey(path) == "/system-status"
    ensures Visit(path, true, userRole) == Shows("SystemStatus") <==> userRole == Some(RoleName(GovernmentAdmin))
    ensures Visit(path, true, userRole) != Shows("SystemStatus") ==> Visit(path, true, userRole) == AccessDenied
  {
    PassNested(SystemStatusRoles, Page("SystemStatus"), true, userRole);
  }

  /** The other layout pages admit any logged-in role, including none. */
  lemma OpenChildrenAdmitAnyRole(path: string, userRole: Option<string>)
    requires MatchKey(path) in OpenChildren
    ensures Visit(path, true, userRole) == Shows(OpenChildren[MatchKey(path)])
  {
    PassLayout(Page(OpenChildren[MatchKey(path)]), true, userRole);
  }

  /** Every link the drawer shows to a logged-in role opens its page rather than a denial or a redirect. */
  lemma {:induction false} SidebarLinksReachable(userRole: Option<string>, e: Sidebar.MenuEntry)
    requires e in Sidebar.Visible(Sidebar.MenuItems, userRole) && e.Link?
    ensures Visit(e.path, true, userRole).Shows?
  {
    FilterMembership(Sidebar.MenuItems, x => Sidebar.Shown(userRole, x), e);
    Sidebar.LinkPaths(e);
    if e == Sidebar.UserManagementLink {
      RestrictedPathsFixed();
      UsersRouteGuard(e.path, userRole);
    } else if e == Sidebar.SystemStatusLink {
      RestrictedPathsFixed();
      SystemStatusRouteGuard(e.path, userRole);
    } else {
      OpenPathsFixed(e.path);
      OpenChildrenAdmitAnyRole(e.path, userRole);
    }
  }
}
