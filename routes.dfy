/** The route table of the application: public pages, pages behind the guard
    with the role they require, and a catch-all redirect to the landing page.
    Paths are matched by exact equality. */
module Routes {
  import opened Base
  import opened Roles
  import opened Gate

  datatype Page = Landing | LoginForm | RegisterForm | EmployeeHome | AdminHome

  datatype Element = Plain(page: Page) | Guarded(requiredRole: string, page: Page) | GoHome

  /** What the client shows for a path: a page or a navigation elsewhere. */
  datatype View = Render(page: Page) | NavigateTo(path: string)

  function RouteFor(path: string): Element {
    if path == "/" then Plain(Landing)
    else if path == "/login" then Plain(LoginForm)
    else if path == "/register" then Plain(RegisterForm)
    else if path == "/dashboard" then Guarded(EmployeeRole, EmployeeHome)
    else if path == "/admin" then Guarded(AdminRole, AdminHome)
    else GoHome
  }

  function ViewOf(d: Decision, page: Page): View {
    match d
    case Allow => Render(page)
    case Redirect(to) => NavigateTo(to)
  }

  /** The view for a path, with the guard as written. */
  function Resolve(path: string, s: Session): View {
    match RouteFor(path)
    case Plain(p) => Render(p)
    case Guarded(role, p) => ViewOf(Guard(Some(role), s), p)
    case GoHome => NavigateTo("/")
  }

  /** The view for a path, with the corrected guard. */
  function ResolveIntended(path: string, s: Session): View {
    match RouteFor(path)
    case Plain(p) => Render(p)
    case Guarded(role, p) => ViewOf(GuardIntended(Some(role), s), p)
    case GoHome => NavigateTo("/")
  }

  /** The landing, login and register pages render for every session. */
  lemma PublicRoutes(s: Session)
    ensures Resolve("/", s) == Render(Landing)
    ensures Resolve("/login", s) == Render(LoginForm)
    ensures Resolve("/register", s) == Render(RegisterForm)
  {
  }

  /** "/dashboard" requires "Employee" and "/admin" requires "Admin": each
      renders exactly for an authenticated session with that role. */
  lemma GuardedRoutes(s: Session)
    ensures RouteFor("/dashboard") == Guarded("Employee", EmployeeHome)
    ensures RouteFor("/admin") == Guarded("Admin", AdminHome)
    ensures Resolve("/dashboard", s) == Render(EmployeeHome) <==> IsAuthenticated(s) && RoleOf(s.user) == Some("Employee")
    ensures Resolve("/admin", s) == Render(AdminHome) <==> IsAuthenticated(s) && RoleOf(s.user) == Some("Admin")
  {
  }

  /** Every other path redirects to the landing page. */
  lemma UnknownPathsGoHome(path: string, s: Session)
    requires path !in {"/", "/login", "/register", "/dashboard", "/admin"}
    ensures Resolve(path, s) == NavigateTo("/")
  {
  }

  /** The sessions the service issues: logged out, or logged in with a user
      whose role is "Admin" or "Employee". */
  predicate Issued(s: Session) {
    !IsAuthenticated(s) || (s.user.Some? && s.user.value.role in {AdminRole, EmployeeRole})
  }

  /** As written, an administrator who opens "/dashboard" is redirected to
      "/dashboard" itself, and the redirect never settles. */
  lemma AdminDashboardRedirectsToItself(s: Session)
    requires IsAuthenticated(s) && RoleOf(s.user) == Some("Admin")
    ensures Resolve("/dashboard", s) == NavigateTo("/dashboard")
    ensures Resolve(Resolve("/dashboard", s).path, s) == NavigateTo("/dashboard")
  {
  }

  /** With the corrected guard, for every issued session every redirect lands
      on a path that renders. */
  lemma IntendedRedirectSettles(path: string, s: Session)
    requires Issued(s)
    requires ResolveIntended(path, s).NavigateTo?
    ensures ResolveIntended(ResolveIntended(path, s).path, s).Render?
  {
  }

  /** The correction settles only for issued sessions: an authenticated
      session with no user, or with a role other than "Admin" and "Employee",
      is still sent from "/dashboard" to "/dashboard", and such a session is
      not one the service issues. */
  lemma IntendedRedirectLoopsOutsideIssued(s: Session)
    requires IsAuthenticated(s) && RoleOf(s.user) != Some("Admin") && RoleOf(s.user) != Some("Employee")
    ensures ResolveIntended("/dashboard", s) == NavigateTo("/dashboard")
    ensures ResolveIntended(ResolveIntended("/dashboard", s).path, s) == NavigateTo("/dashboard")
    ensures !Issued(s)
  {
  }
}
