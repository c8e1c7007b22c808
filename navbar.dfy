/** The navigation bar: where the logo leads, which button is shown, and the
    logout sequence. Every decision here reads the session's user, not its
    token. */
module Navbar {
  import opened Base
  import opened Roles
  import opened Auth

  /** `handleLogoClick`: the landing page without a user, else by role. */
  function LogoTarget(user: Option<User>): string {
    match user
    case None => "/"
    case Some(u) => if u.role == AdminRole then "/admin" else "/dashboard"
  }

  datatype NavButton = LogoutButton | RegisterButton | LoginButton

  /** The button shown for the user and the current path. */
  function ShownButton(user: Option<User>, pathname: string): NavButton {
    if user.Some? then LogoutButton
    else if pathname == "/login" then RegisterButton
    else LoginButton
  }

  /** The logo leads a logged-in user to the home screen of the user's role,
      and everyone else to the landing page. */
  lemma LogoTargetIsRoleHome(user: Option<User>)
    ensures user.Some? ==> LogoTarget(user) == RoleHome(RoleOf(user))
    ensures user.None? ==> LogoTarget(user) == "/"
  {
  }

  /** Logout is shown exactly when there is a user; Register exactly when
      there is none and the path is "/login"; Login otherwise. */
  lemma ButtonChoice(user: Option<User>, pathname: string)
    ensures ShownButton(user, pathname) == LogoutButton <==> user.Some?
    ensures ShownButton(user, pathname) == RegisterButton <==> user.None? && pathname == "/login"
    ensures ShownButton(user, pathname) == LoginButton <==> user.None? && pathname != "/login"
  {
  }

  /** A session with a token and no user (which initialisation can produce)
      passes as authenticated, yet the bar offers Login and the logo leads to
      the landing page. */
  lemma TokenWithoutUserLooksLoggedOut(t: string, pathname: string)
    requires t != "" && pathname != "/login"
    ensures IsAuthenticated(Session(None, Some(t)))
    ensures ShownButton(Session(None, Some(t)).user, pathname) == LoginButton
    ensures LogoTarget(Session(None, Some(t)).user) == "/"
  {
  }

  /** `handleLogout`: dispatch `logout`, remove both keys once more, and
      navigate to the login page. */
  method HandleLogout(auth: AuthSlice) returns (nav: string)
    modifies auth, auth.storage
    ensures auth.State() == Session(None, None)
    ensures auth.storage.items == LogoutStore(old(auth.storage.items))
    ensures nav == "/login"
  {
    auth.Logout();
    auth.storage.RemoveItem(TokenKey);
    auth.storage.RemoveItem(UserKey);
    LogoutIdempotent(old(auth.storage.items));
    assert auth.storage.items == LogoutStore(LogoutStore(old(auth.storage.items)));
    nav := "/login";
  }
}
