/** The routing decisions of the application shell: the role guard around each dashboard, the
    home redirect by role, and the login page's redirect once someone is signed in. */
module AppRoutes {
  import opened Wrappers
  import opened Domain

  datatype Page = LoginPage | CitizenPage | SupervisorPage | WorkerPage | NotFoundPage

  /** What a route renders: the loading spinner, a redirect, or a page. */
  datatype View = Spinner | Redirect(to: string) | Show(page: Page)

  /** `ProtectedRoute`: the spinner while the session loads, the login page for nobody, home for
      a role the route does not admit, and the page otherwise. */
  function ProtectedRoute(isLoading: bool, user: Option<User>, allowedRoles: seq<string>, page: Page): (v: View)
    ensures isLoading ==> v == Spinner
    ensures !isLoading && user.None? ==> v == Redirect("/login")
    ensures !isLoading && user.Some? ==> (v == Show(page) <==> user.value.role in allowedRoles)
    ensures !isLoading && user.Some? && user.value.role !in allowedRoles ==> v == Redirect("/")
  {
    if isLoading then Spinner
    else if user.None? then Redirect("/login")
    else if user.value.role !in allowedRoles then Redirect("/")
    else Show(page)
  }

  /** The home redirect: the dashboard path of a declared role, and the login page for nobody
      and for a role that is not declared. */
  function HomeTarget(user: Option<User>): (path: string)
    ensures user.None? ==> path == "/login"
    ensures user.Some? && WellTypedUser(user.value) ==> path in {"/citizen", "/supervisor", "/worker"}
    ensures user.Some? && !WellTypedUser(user.value) ==> path == "/login"
  {
    match user
    case None => "/login"
    case Some(u) =>
      if u.role == "ciudadano" then "/citizen"
      else if u.role == "supervisor" then "/supervisor"
      else if u.role == "trabajador" then "/worker"
      else "/login"
  }

  /** `AppRouter`: what each path renders for the current session. */
  function Route(path: string, isLoading: bool, user: Option<User>): (v: View)
    ensures isLoading ==> v == Spinner
  {
    if isLoading then Spinner
    else if path == "/login" then (if user.Some? then Redirect("/") else Show(LoginPage))
    else if path == "/" then Redirect(HomeTarget(user))
    else if path == "/citizen" then ProtectedRoute(false, user, ["ciudadano"], CitizenPage)
    else if path == "/supervisor" then ProtectedRoute(false, user, ["supervisor"], SupervisorPage)
    else if path == "/worker" then ProtectedRoute(false, user, ["trabajador"], WorkerPage)
    else Show(NotFoundPage)
  }

  /** The dashboard each role lands on. */
  function DashboardOf(role: Role): Page
  {
    match role
    case Ciudadano => CitizenPage
    case Supervisor => SupervisorPage
    case Trabajador => WorkerPage
  }

  /** The login page redirects exactly when someone is signed in. */
  lemma LoginRedirectsWhenSignedIn(user: Option<User>)
    ensures Route("/login", false, user).Redirect? <==> user.Some?
  {
  }

  /** Following the home redirect lands a user with a declared role on their own dashboard, and
      nobody on the login page; a user with any other role is sent on to the login page, which
      sends them back home. */
  lemma HomeLeadsToOwnDashboard(user: Option<User>)
    ensures user.Some? && WellTypedUser(user.value) ==>
              Route(HomeTarget(user), false, user) == Show(DashboardOf(ParseRole(user.value.role).value))
    ensures user.None? ==> Route(HomeTarget(user), false, user) == Show(LoginPage)
    ensures user.Some? && !WellTypedUser(user.value) ==> Route(HomeTarget(user), false, user) == Redirect("/")
  {
  }

  /** Each dashboard is shown to exactly one role. */
  lemma EachDashboardAdmitsOneRole(u: User)
    ensures Route("/citizen", false, Some(u)).Show? <==> u.role == "ciudadano"
    ensures Route("/supervisor", false, Some(u)).Show? <==> u.role == "supervisor"
    ensures Route("/worker", false, Some(u)).Show? <==> u.role == "trabajador"
  {
  }

  /** Follow at most `hops` redirects from `path`, each step rendered by `router`. */
  function Navigate(router: string -> View, path: string, hops: nat): View
    decreases hops
  {
    var v := router(path);
    if v.Redirect? && hops > 0 then Navigate(router, v.to, hops - 1) else v
  }

  /** The application shell once the session has loaded, as written. */
  function Loaded(user: Option<User>): string -> View
  {
    (path: string) => Route(path, false, user)
  }

  /** Once the session has loaded, for nobody and for a user with a declared role, every path
      settles on a page after at most two redirects. Nobody ends on the login page or the
      not-found page; a signed-in user sent to home or to the login page ends on their own
      dashboard. */
  lemma {:induction false} NavigationSettles(path: string, user: Option<User>)
    ensures user.None? || WellTypedUser(user.value) ==> Navigate(Loaded(user), path, 2).Show?
    ensures user.None? ==> Navigate(Loaded(user), path, 2) in {Show(LoginPage), Show(NotFoundPage)}
    ensures user.Some? && WellTypedUser(user.value) && path in {"/", "/login"} ==>
              Navigate(Loaded(user), path, 2) == Show(DashboardOf(ParseRole(user.value.role).value))
  {
    HomeLeadsToOwnDashboard(user);
    var v := Route(path, false, user);
    if v.Redirect? {
      assert v.to in {"/", "/login"} || v.to == HomeTarget(user);
    }
  }

  /** As written, a session whose role is not declared never settles: home sends it to the
      login page, and the login page sends any signed-in user home, however many redirects are
      followed. */
  lemma {:induction false} UndeclaredRoleLoops(u: User, hops: nat)
    requires !WellTypedUser(u)
    ensures Navigate(Loaded(Some(u)), "/", hops) == Redirect(if hops % 2 == 0 then "/login" else "/")
    ensures Navigate(Loaded(Some(u)), "/login", hops) == Redirect(if hops % 2 == 0 then "/" else "/login")
    decreases hops
  {
    if hops > 0 {
      UndeclaredRoleLoops(u, hops - 1);
    }
  }

  /** The shell with the login page's redirect reserved for sessions with a declared role, so
      that a session with any other role is shown the login page to sign in again. It agrees
      with `Route` on every other path and on every session with a declared role. */
  function FixedRoute(path: string, isLoading: bool, user: Option<User>): (v: View)
    ensures path != "/login" || user.None? || WellTypedUser(user.value) ==> v == Route(path, isLoading, user)
    ensures !isLoading && path == "/login" ==> (v.Redirect? <==> user.Some? && WellTypedUser(user.value))
  {
    if !isLoading && path == "/login" && user.Some? && !WellTypedUser(user.value) then Show(LoginPage)
    else Route(path, isLoading, user)
  }

  /** The corrected shell once the session has loaded. */
  function FixedLoaded(user: Option<User>): string -> View
  {
    (path: string) => FixedRoute(path, false, user)
  }

  /** With the corrected shell every session, whatever role it carries, settles on a page
      after at most two redirects, and a user with a declared role still lands on their own
      dashboard from home and from the login page. */
  lemma {:induction false} FixedNavigationSettles(path: string, user: Option<User>)
    ensures Navigate(FixedLoaded(user), path, 2).Show?
    ensures user.Some? && WellTypedUser(user.value) && path in {"/", "/login"} ==>
              Navigate(FixedLoaded(user), path, 2) == Show(DashboardOf(ParseRole(user.value.role).value))
  {
    HomeLeadsToOwnDashboard(user);
    var v := FixedRoute(path, false, user);
    if v.Redirect? {
      assert v.to in {"/", "/login"} || v.to == HomeTarget(user);
    }
  }
}
