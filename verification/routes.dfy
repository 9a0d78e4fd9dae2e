/**
 * The application's route table and what happens when a session arrives at
 * a path: the guard of that route, or the auth page's own redirect. On top
 * of it, the claims that tie the gate, the auth page and the navigation
 * bar together: redirects land on real routes and settle quickly.
 */
module Routes {
  import opened Wrappers
  import opened Session
  import AccessGate
  import AuthScreen
  import Navigation

  datatype Page = Home | AuthPage | Dashboard | PanditDashboard | Shop | BookPandit | Bookings | NotFound

  /** A route: the page it shows and, for a protected one, the flags of its `ProtectedRoute`. */
  datatype RouteEntry = RouteEntry(page: Page, guard: Option<AccessGate.Guard>)

  const RequesterOnly := AccessGate.Guard(false, true)
  const PanditOnly := AccessGate.Guard(true, false)

  /** The declared paths, in declaration order. */
  const DeclaredPaths: seq<string> :=
    [HomePath, AuthPath, DashboardPath, PanditDashboardPath, "/shop", "/book-pandit", "/bookings"]

  /** The `<Routes>` table; any other path falls through to `*`. */
  function Resolve(path: string): RouteEntry
  {
    if path == HomePath then RouteEntry(Home, None)
    else if path == AuthPath then RouteEntry(AuthPage, None)
    else if path == DashboardPath then RouteEntry(Dashboard, Some(RequesterOnly))
    else if path == PanditDashboardPath then RouteEntry(PanditDashboard, Some(PanditOnly))
    else if path == "/shop" then RouteEntry(Shop, Some(RequesterOnly))
    else if path == "/book-pandit" then RouteEntry(BookPandit, Some(RequesterOnly))
    else if path == "/bookings" then RouteEntry(Bookings, Some(RequesterOnly))
    else RouteEntry(NotFound, None)
  }

  /**
   * The shape of the table: the public pages carry no guard, the pandit
   * dashboard is pandit-only, the other four pages are requester-only, no
   * route sets both flags, and exactly the undeclared paths reach NotFound.
   */
  lemma TableShape(path: string)
    ensures path == HomePath || path == AuthPath <==> Resolve(path).page in {Home, AuthPage}
    ensures Resolve(path).page in {Home, AuthPage, NotFound} <==> Resolve(path).guard.None?
    ensures Resolve(path).guard == Some(PanditOnly) <==> path == PanditDashboardPath
    ensures Resolve(path).guard == Some(RequesterOnly) <==>
      path in {DashboardPath, "/shop", "/book-pandit", "/bookings"}
    ensures Resolve(path).guard.Some? ==>
      !(Resolve(path).guard.value.requirePandit && Resolve(path).guard.value.requireUser)
    ensures Resolve(path).page == NotFound <==> path !in DeclaredPaths
  {
  }

  /** The navigation the app performs on arriving at `path`: the route's guard, or the auth page's redirect. */
  function Visit(s: AuthState, path: string): Option<string>
  {
    var entry := Resolve(path);
    if entry.guard.Some? then AccessGate.Redirect(s, entry.guard.value)
    else if entry.page == AuthPage then AuthScreen.AuthRedirect(s.user)
    else None
  }

  /** Where the app ends up after one step from `path`. */
  function Next(s: AuthState, path: string): string
  {
    match Visit(s, path)
    case Some(target) => target
    case None => path
  }

  /** Every redirect, of the gate or of the auth page, lands on a declared route. */
  lemma RedirectsLandOnRoutes(s: AuthState, path: string)
    ensures Visit(s, path).Some? ==>
      Visit(s, path).value in DeclaredPaths && Resolve(Visit(s, path).value).page != NotFound
  {
  }

  /**
   * From a protected path, with the profile loaded, at most one role
   * redirect happens, and its target shows its page without redirecting again.
   */
  lemma AtMostOneRoleRedirect(s: AuthState, path: string)
    requires !s.loading && s.user.Some? && s.profile.Some?
    requires Resolve(path).guard.Some?
    requires Visit(s, path).Some?
    ensures Visit(s, Next(s, path)) == None
    ensures var target := Resolve(Next(s, path));
      target.guard.Some? && AccessGate.Render(s, target.guard.value) == AccessGate.Children
  {
  }

  /**
   * No redirect loop: from any path, for any session, two steps reach a path
   * that stays put. Two are needed: a signed-in pandit on the auth page goes
   * to the requester dashboard first, and from there to the pandit dashboard.
   */
  lemma {:induction false} SettlesWithinTwoSteps(s: AuthState, path: string)
    ensures Visit(s, Next(s, Next(s, path))) == None
  {
    var p1 := Next(s, path);
    var p2 := Next(s, p1);
    if Visit(s, path).Some? {
      RedirectsLandOnRoutes(s, path);
    }
    if Visit(s, p1).Some? {
      RedirectsLandOnRoutes(s, p1);
    }
  }

  /** The two-step case happens. */
  lemma PanditOnAuthPageTakesTwoSteps(s: AuthState)
    requires !s.loading && s.user.Some? && s.profile.Some? && s.profile.value.isPandit
    ensures Next(s, AuthPath) == DashboardPath
    ensures Next(s, DashboardPath) == PanditDashboardPath
    ensures Visit(s, PanditDashboardPath) == None
  {
  }

  /** Every link of the navigation bar names a declared route. */
  lemma NavigationLinksAreRoutes(s: AuthState)
    ensures forall t :: t in Navigation.DesktopTargets(s) ==> t in DeclaredPaths
  {
    Navigation.TargetsBySession(s);
  }

  /** The bar's role test and the gate's agree for this profile. */
  predicate RolesAgree(s: AuthState)
  {
    s.profile.Some? ==> (s.profile.value.userType == Some("pandit") <==> s.profile.value.isPandit)
  }

  /** When the two role columns agree, no link of the bar leads to a redirect. */
  lemma AgreeingRolesFollowLinksWithoutRedirect(s: AuthState)
    requires RolesAgree(s)
    ensures forall t :: t in Navigation.DesktopTargets(s) ==> Visit(s, t) == None
  {
    Navigation.TargetsBySession(s);
  }

  /**
   * The bar keys on `user_type`, the gate on `is_pandit`. A loaded pandit
   * profile whose `user_type` is not 'pandit' gets the requester links, and
   * every one of them bounces to the pandit dashboard.
   */
  lemma DisagreeingPanditIsBouncedByEveryLink(s: AuthState)
    requires !s.loading && s.user.Some? && s.profile.Some?
    requires s.profile.value.isPandit && s.profile.value.userType != Some("pandit")
    ensures Navigation.DesktopTargets(s) == {DashboardPath, "/shop", "/book-pandit", "/bookings"}
    ensures forall t :: t in Navigation.DesktopTargets(s) ==> Visit(s, t) == Some(PanditDashboardPath)
  {
    Navigation.TargetsBySession(s);
  }
}
