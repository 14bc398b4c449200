/** The route table, the guard around every dashboard route and the dashboard home dispatch. */
module Routing {
  import opened Types
  import opened AuthContext

  /** The page components a route can render. */
  datatype Page = HomePage | LoginPage | RegisterPage
                | BookPage | MyAppointmentsPage | ManageDoctorsPage | ManageUsersPage
                | DoctorAppointmentsPage | ProfilePage | DashboardHomePage

  /** What visiting a path produces: a redirect, a public page, or a page inside the dashboard layout. */
  datatype Outcome = RedirectTo(path: string) | Public(page: Page) | InLayout(page: Page)

  /** A route: a public page, or a guarded page with its optional `allowedRoles`. */
  datatype Route = PublicRoute(page: Page) | Guarded(page: Page, allowedRoles: Option<seq<Role>>)

  /** The path without its trailing slashes. */
  function TrimTrailing(path: string): (r: string)
    ensures |r| <= |path| && r == path[..|r|]
    ensures r == [] || r[|r| - 1] != '/'
    ensures forall i :: |r| <= i < |path| ==> path[i] == '/'
    decreases |path|
  {
    if path != [] && path[|path| - 1] == '/' then TrimTrailing(path[..|path| - 1]) else path
  }

  /** Two paths that agree once lower-cased: route matching is not case-sensitive. */
  predicate SameIgnoringCase(a: string, b: string) {
    |a| == |b| && forall i :: 0 <= i < |a| ==> LowerChar(a[i]) == LowerChar(b[i])
  }

  /**
   * The `<Routes>` table; `None` is an unmatched path. A location matches a route path when,
   * its trailing slashes dropped, it agrees with the path up to case.
   */
  function RouteOf(path: string): Option<Route> {
    RouteAt(TrimTrailing(path))
  }

  /** The route paths, with their trailing slashes dropped: `/` is the empty path. */
  function RouteAt(p: string): Option<Route> {
    if SameIgnoringCase(p, "") then Some(PublicRoute(HomePage))
    else if SameIgnoringCase(p, "/login") then Some(PublicRoute(LoginPage))
    else if SameIgnoringCase(p, "/register") then Some(PublicRoute(RegisterPage))
    else if SameIgnoringCase(p, "/dashboard/book") then Some(Guarded(BookPage, Some([UserRole])))
    else if SameIgnoringCase(p, "/dashboard/my-appointments") then
      Some(Guarded(MyAppointmentsPage, Some([UserRole, DoctorRole])))
    else if SameIgnoringCase(p, "/dashboard/doctors") then Some(Guarded(ManageDoctorsPage, Some([AdminRole])))
    else if SameIgnoringCase(p, "/dashboard/users") then Some(Guarded(ManageUsersPage, Some([AdminRole])))
    else if SameIgnoringCase(p, "/dashboard/appointments") then
      Some(Guarded(DoctorAppointmentsPage, Some([AdminRole])))
    else if SameIgnoringCase(p, "/dashboard/profile") then
      Some(Guarded(ProfilePage, Some([UserRole, DoctorRole, AdminRole])))
    else if SameIgnoringCase(p, "/dashboard") then
      Some(Guarded(DashboardHomePage, Some([UserRole, DoctorRole, AdminRole])))
    else None
  }

  /** The two route paths of equal length differ, at their twelfth character. */
  lemma ProfileIsNotDoctors()
    ensures !SameIgnoringCase("/dashboard/profile", "/dashboard/doctors")
  {
    assert "/dashboard/profile"[11] == 'p';
    assert "/dashboard/doctors"[11] == 'd';
  }

  /** Lower-casing leaves slashes where they are, so it commutes with trimming them. */
  lemma {:induction false} TrimLower(path: string)
    ensures TrimTrailing(Lower(path)) == Lower(TrimTrailing(path))
    decreases |path|
  {
    if path != [] {
      var n := |path|;
      assert Lower(path)[..n - 1] == Lower(path[..n - 1]);
      if path[n - 1] == '/' {
        TrimLower(path[..n - 1]);
      }
    }
  }

  /** Visiting a path and visiting it with a trailing slash give the same outcome. */
  lemma TrailingSlashIgnored(auth: AuthState, path: string)
    ensures Visit(auth, path + "/") == Visit(auth, path)
  {
    assert (path + "/")[..|path|] == path;
  }

  /** Visiting a path and visiting it lower-cased give the same outcome. */
  lemma CaseIgnored(auth: AuthState, path: string)
    ensures Visit(auth, Lower(path)) == Visit(auth, path)
  {
    TrimLower(path);
    RouteAtLower(TrimTrailing(path));
  }

  /** Lower-casing one side does not change whether two paths agree up to case. */
  lemma LowerSame(t: string, q: string)
    ensures SameIgnoringCase(Lower(t), q) == SameIgnoringCase(t, q)
  {
    assert forall i :: 0 <= i < |t| ==> LowerChar(Lower(t)[i]) == LowerChar(t[i]);
  }

  /** The table looks a lower-cased path up as it looks up the path. */
  lemma RouteAtLower(t: string)
    ensures RouteAt(Lower(t)) == RouteAt(t)
  {
    LowerSame(t, "");
    LowerSame(t, "/login");
    LowerSame(t, "/register");
    LowerSame(t, "/dashboard/book");
    LowerSame(t, "/dashboard/my-appointments");
    LowerSame(t, "/dashboard/doctors");
    LowerSame(t, "/dashboard/users");
    LowerSame(t, "/dashboard/appointments");
    LowerSame(t, "/dashboard/profile");
    LowerSame(t, "/dashboard");
  }

  /** `ProtectedRoute`. */
  function Protect(auth: AuthState, allowedRoles: Option<seq<Role>>, page: Page): (r: Outcome)
    ensures !auth.isAuthenticated ==> r == RedirectTo("/")
    ensures auth.isAuthenticated && allowedRoles.Some? && auth.user.Some? && auth.user.value.role !in allowedRoles.value
            ==> r == RedirectTo("/dashboard")
    ensures r.InLayout? <==>
      auth.isAuthenticated && (allowedRoles.None? || auth.user.None? || auth.user.value.role in allowedRoles.value)
    ensures r.InLayout? ==> r.page == page
  {
    if !auth.isAuthenticated then RedirectTo("/")
    else if allowedRoles.Some? && auth.user.Some? && auth.user.value.role !in allowedRoles.value then RedirectTo("/dashboard")
    else InLayout(page)
  }

  /** Visiting `path`. */
  function Visit(auth: AuthState, path: string): Outcome {
    Dispatch(auth, RouteOf(path))
  }

  /** What a matched route, or no match, renders. */
  function Dispatch(auth: AuthState, route: Option<Route>): Outcome {
    match route
    case None => RedirectTo("/")
    case Some(PublicRoute(p)) => Public(p)
    case Some(Guarded(p, roles)) => Protect(auth, roles, p)
  }

  /** The state of a signed-in account. */
  function SignedIn(u: Account): AuthState {
    AuthState(Some(u), true)
  }

  /** The patient routes: booking admits only patients, the history patients and doctors. */
  lemma PatientRoutes(u: Account)
    ensures Visit(SignedIn(u), "/dashboard/book").InLayout? <==> u.role == UserRole
    ensures Visit(SignedIn(u), "/dashboard/my-appointments").InLayout? <==> u.role == UserRole || u.role == DoctorRole
  {
  }

  /** The management routes admit only admins. */
  lemma AdminRoutes(u: Account)
    ensures Visit(SignedIn(u), "/dashboard/doctors").InLayout? <==> u.role == AdminRole
    ensures Visit(SignedIn(u), "/dashboard/users").InLayout? <==> u.role == AdminRole
    ensures Visit(SignedIn(u), "/dashboard/appointments").InLayout? <==> u.role == AdminRole
  {
  }

  /** The profile and the dashboard home admit every signed-in account. */
  lemma SharedRoutes(u: Account)
    ensures Visit(SignedIn(u), "/dashboard/profile").InLayout?
    ensures Visit(SignedIn(u), "/dashboard") == InLayout(DashboardHomePage)
  {
    ProfileIsNotDoctors();
    assert RouteAt("/dashboard/profile") == Some(Guarded(ProfilePage, Some([UserRole, DoctorRole, AdminRole])));
    assert u.role in [UserRole, DoctorRole, AdminRole] by {
      match u.role
      case UserRole =>
      case DoctorRole =>
      case AdminRole =>
    }
  }

  /** Every path under the guard sends a signed-out visitor to `/`. */
  lemma SignedOutGoesHome(auth: AuthState, path: string)
    requires !auth.isAuthenticated
    requires RouteOf(path).Some? && RouteOf(path).value.Guarded?
    ensures Visit(auth, path) == RedirectTo("/")
  {
  }

  /** A guard redirect is never followed by another: `/dashboard` lets every signed-in account in. */
  lemma RedirectTargetsAdmit(auth: AuthState, path: string)
    requires Visit(auth, path).RedirectTo?
    ensures Visit(auth, path).path == "/" || Visit(auth, path).path == "/dashboard"
    ensures !Visit(auth, Visit(auth, path).path).RedirectTo?
  {
    var o := Visit(auth, path);
    if o.path == "/dashboard" {
      assert auth.isAuthenticated;
      if auth.user.Some? {
        match auth.user.value.role
        case UserRole => assert UserRole in [UserRole, DoctorRole, AdminRole];
        case DoctorRole => assert DoctorRole in [UserRole, DoctorRole, AdminRole];
        case AdminRole => assert AdminRole in [UserRole, DoctorRole, AdminRole];
      }
    } else {
      assert TrimTrailing("/") == "";
      assert RouteOf("/") == Some(PublicRoute(HomePage));
    }
  }

  /** An unmatched path redirects to `/`. */
  lemma UnmatchedGoesHome(auth: AuthState, path: string)
    requires RouteOf(path).None?
    ensures Visit(auth, path) == RedirectTo("/")
  {
  }

  /** What `/dashboard` shows. */
  datatype HomeView = AdminDashboardView | DoctorPortalView | WelcomeView(name: Option<string>)

  /** `DashboardHomeRouter`. */
  function DashboardHome(user: Option<Account>): (v: HomeView)
    ensures v == AdminDashboardView <==> user.Some? && user.value.role == AdminRole
    ensures v == DoctorPortalView <==> user.Some? && user.value.role == DoctorRole
    ensures v.WelcomeView? ==> v.name == if user.Some? then Some(user.value.name) else None
  {
    if user.Some? && user.value.role == AdminRole then AdminDashboardView
    else if user.Some? && user.value.role == DoctorRole then DoctorPortalView
    else WelcomeView(if user.Some? then Some(user.value.name) else None)
  }
}
