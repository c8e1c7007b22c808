/** How the client reads a session: whether it counts as logged in, which role
    it carries and which home screen belongs to a role. */
module Roles {
  import opened Base

  const AdminRole := "Admin"
  const EmployeeRole := "Employee"

  /** `!!token`: a session is authenticated when its token is present and non-empty. */
  predicate IsAuthenticated(s: Session) {
    Truthy(s.token)
  }

  /** `user ? user.role : null` (also what `user?.role` compares as). */
  function RoleOf(user: Option<User>): Option<string> {
    match user
    case None => None
    case Some(u) => Some(u.role)
  }

  /** The home screen of a role: the admin dashboard for "Admin", the
      employee dashboard for every other role and for no role. */
  function RoleHome(role: Option<string>): string {
    if role == Some(AdminRole) then "/admin" else "/dashboard"
  }
}
