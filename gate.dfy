/** The route guard: given the role a route requires and the session, either
    render the route or redirect. */
module Gate {
  import opened Base
  import opened Roles

  datatype Decision = Allow | Redirect(to: string)

  /** The guard as written: a mismatching role is sent to "/admin" only when
      it is the lower-case "admin", which the service never issues. */
  function Guard(requiredRole: Option<string>, s: Session): (d: Decision)
    ensures d == Allow || d == Redirect("/login") || d == Redirect("/admin") || d == Redirect("/dashboard")
    ensures !IsAuthenticated(s) ==> d == Redirect("/login")
    ensures d == Allow ==> IsAuthenticated(s)
  {
    if !IsAuthenticated(s) then Redirect("/login")
    else if Truthy(requiredRole) && RoleOf(s.user) != requiredRole then
      Redirect(if RoleOf(s.user) == Some("admin") then "/admin" else "/dashboard")
    else Allow
  }

  /** The guard with the mismatch sent to the role's home screen. */
  function GuardIntended(requiredRole: Option<string>, s: Session): (d: Decision)
    ensures d == Allow || d == Redirect("/login") || d == Redirect("/admin") || d == Redirect("/dashboard")
    ensures !IsAuthenticated(s) ==> d == Redirect("/login")
    ensures d == Allow ==> IsAuthenticated(s)
  {
    if !IsAuthenticated(s) then Redirect("/login")
    else if Truthy(requiredRole) && RoleOf(s.user) != requiredRole then Redirect(RoleHome(RoleOf(s.user)))
    else Allow
  }

  /** An authenticated session passes a route that requires no role, and one
      whose role is the required one. */
  lemma GuardAllows(requiredRole: Option<string>, s: Session)
    requires IsAuthenticated(s)
    requires !Truthy(requiredRole) || RoleOf(s.user) == requiredRole
    ensures Guard(requiredRole, s) == Allow
  {
  }

  /** An authenticated session whose role is not the required one is
      redirected: to "/admin" exactly when its role is the lower-case "admin",
      to "/dashboard" otherwise, including for "Admin" and for no user. */
  lemma GuardMismatch(requiredRole: string, s: Session)
    requires IsAuthenticated(s) && requiredRole != ""
    requires RoleOf(s.user) != Some(requiredRole)
    ensures Guard(Some(requiredRole), s) == Redirect("/admin") <==> RoleOf(s.user) == Some("admin")
    ensures Guard(Some(requiredRole), s) == Redirect("/dashboard") <==> RoleOf(s.user) != Some("admin")
    ensures s.user == None ==> Guard(Some(requiredRole), s) == Redirect("/dashboard")
  {
  }

  /** Against the role-home reference: the guard as written agrees with it on
      every mismatch except the two spellings of the admin role. */
  lemma GuardVersusRoleHome(requiredRole: string, s: Session)
    requires IsAuthenticated(s) && requiredRole != ""
    requires RoleOf(s.user) != Some(requiredRole)
    ensures Guard(Some(requiredRole), s) == Redirect(RoleHome(RoleOf(s.user)))
        <==> RoleOf(s.user) != Some("Admin") && RoleOf(s.user) != Some("admin")
    ensures GuardIntended(Some(requiredRole), s) == Redirect(RoleHome(RoleOf(s.user)))
  {
  }

  /** The two guards differ only where a mismatching role is spelled "Admin"
      or "admin". */
  lemma GuardsDiffer(requiredRole: Option<string>, s: Session)
    ensures Guard(requiredRole, s) != GuardIntended(requiredRole, s)
        <==> IsAuthenticated(s) && Truthy(requiredRole) && RoleOf(s.user) != requiredRole
             && (RoleOf(s.user) == Some("Admin") || RoleOf(s.user) == Some("admin"))
  {
  }
}
