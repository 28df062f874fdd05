/**
 * The routing layer: the `ProtectedRoute` decision, the role lists of the
 * two protected routes, and which links the navigation bar shows.
 */
module App {
  import opened Wrappers
  import opened AuthContext

  /** What `ProtectedRoute` renders. */
  datatype GuardView = LoadingView | LoginView | AccessDenied(role: string) | Children

  /**
   * `ProtectedRoute`. An absent role and the empty string are both falsy in
   * the source, so either one skips the role check and lets the user in.
   */
  function Guard(user: Option<User>, role: Option<string>, loading: bool, allowedRoles: Option<seq<string>>): GuardView {
    if loading then LoadingView
    else if user.None? then LoginView
    else if allowedRoles.Some? && role.Some? && role.value != "" && role.value !in allowedRoles.value then AccessDenied(role.value)
    else Children
  }

  lemma GuardWaitsWhileLoading(user: Option<User>, role: Option<string>, allowedRoles: Option<seq<string>>)
    ensures Guard(user, role, true, allowedRoles) == LoadingView
  {
  }

  lemma GuardSendsAnonymousToLogin(role: Option<string>, allowedRoles: Option<seq<string>>)
    ensures Guard(None, role, false, allowedRoles) == LoginView
  {
  }

  /** A signed-in user with a non-empty role outside the list is denied, and only then. */
  lemma GuardDeniesExactlyForeignRoles(u: User, role: Option<string>, allowedRoles: Option<seq<string>>)
    ensures Guard(Some(u), role, false, allowedRoles).AccessDenied? <==>
      allowedRoles.Some? && role.Some? && role.value != "" && role.value !in allowedRoles.value
    ensures Guard(Some(u), role, false, allowedRoles) == Children <==>
      allowedRoles.None? || role.None? || role.value == "" || role.value in allowedRoles.value
  {
  }

  /** The signed-in user whose role has not arrived yet is let through every protected route. */
  lemma GuardAdmitsMissingRole(u: User, allowedRoles: Option<seq<string>>)
    ensures Guard(Some(u), None, false, allowedRoles) == Children
  {
  }

  datatype Route = Home | Status | LoginPage | Admin | Database

  /** The `allowedRoles` each route passes to `ProtectedRoute`; None for the public routes. */
  function AllowedRoles(route: Route): Option<seq<string>> {
    match route
    case Admin => Some(["admin"])
    case Database => Some(["admin", "staff"])
    case _ => None
  }

  /**
   * What the application shows for `route` in provider state `s`. The auth
   * provider wraps the router and the navigation bar and renders only its
   * spinner while loading, so no route is reached until loading ends.
   */
  datatype Page = Spinner | Public(route: Route) | Guarded(view: GuardView)

  function Visit(route: Route, s: AuthState): (p: Page)
    ensures s.loading ==> p == Spinner
    ensures !s.loading && route in {Home, Status, LoginPage} ==> p == Public(route)
    ensures !s.loading && route in {Admin, Database} ==> p == Guarded(Guard(s.user, s.role, false, AllowedRoles(route)))
  {
    if s.loading then Spinner
    else if route.Admin? || route.Database? then Guarded(Guard(s.user, s.role, s.loading, AllowedRoles(route)))
    else Public(route)
  }

  /** Behind the provider's spinner, the guard's own loading view is never reached. */
  lemma GuardLoadingViewUnreachable(route: Route, s: AuthState)
    ensures Visit(route, s) != Guarded(LoadingView)
  {
  }

  /** `/admin` admits only `'admin'`, `/database` admits `'admin'` or `'staff'`; `'user'` is turned away from both. */
  lemma ProtectedRouteRoles(s: AuthState)
    requires !s.loading && s.user.Some? && s.role.Some? && s.role.value != ""
    ensures Visit(Admin, s) == Guarded(Children) <==> s.role.value == "admin"
    ensures Visit(Database, s) == Guarded(Children) <==> s.role.value in {"admin", "staff"}
    ensures s.role == Some("user") ==> Visit(Admin, s).view.AccessDenied? && Visit(Database, s).view.AccessDenied?
  {
  }

  /**
   * A sign-in reported by the auth-change listener after loading has ended
   * sets the user before the role lookup returns; in that window `/admin`
   * renders its children.
   */
  lemma AdminOpenBeforeRoleArrives(s: AuthState, u: User)
    requires s.mounted && !s.loading && s.role.None?
    ensures Visit(Admin, Step(true, s, AuthChanged(Some(u)))) == Guarded(Children)
  {
  }

  /** The links in the navigation bar. */
  datatype NavLink = HomeLink | StatusLink | AdminLink | DataLink | LogoutButton | LoginLink

  function NavLinks(user: Option<User>): (links: seq<NavLink>)
    ensures AdminLink in links <==> user.Some?
    ensures DataLink in links <==> user.Some?
    ensures LogoutButton in links <==> user.Some?
    ensures LoginLink in links <==> user.None?
    ensures |links| >= 2 && links[..2] == [HomeLink, StatusLink]
  {
    [HomeLink, StatusLink]
      + (if user.Some? then [AdminLink, DataLink] else [])
      + (if user.Some? then [LogoutButton] else [LoginLink])
  }
}
