/** The login page: the redirect of an already logged-in user, and the submit
    handler (validate, call the service, write the store, dispatch `login`,
    navigate by role). */
module LoginPage {
  import opened Base
  import opened Roles
  import opened Json
  import opened Auth
  import opened Validation

  const LoginFailed := "Login failed. Please check your credentials."

  /** Where the login page sends a role: "Admin" to the admin dashboard,
      "Employee" to the employee dashboard, and any other role nowhere. */
  function RoleTarget(role: Option<string>): Option<string> {
    if role == Some(AdminRole) then Some("/admin")
    else if role == Some(EmployeeRole) then Some("/dashboard")
    else None
  }

  /** The effect run on render: an authenticated visitor is sent on by role. */
  function AlreadyLoggedInRedirect(s: Session): Option<string> {
    if IsAuthenticated(s) then RoleTarget(RoleOf(s.user)) else None
  }

  /** Against the role-home reference: the login page navigates exactly for
      the two issued roles, and then to the role's home screen. */
  lemma RoleTargetVersusRoleHome(role: Option<string>)
    ensures RoleTarget(role).Some? <==> role == Some(AdminRole) || role == Some(EmployeeRole)
    ensures RoleTarget(role).Some? ==> RoleTarget(role).value == RoleHome(role)
  {
  }

  /** A visitor who is not authenticated stays; one who is moves on only
      when the role is "Admin" or "Employee". */
  lemma AlreadyLoggedInRedirectCases(s: Session)
    ensures !IsAuthenticated(s) ==> AlreadyLoggedInRedirect(s) == None
    ensures IsAuthenticated(s) && RoleOf(s.user) == Some("Admin") ==> AlreadyLoggedInRedirect(s) == Some("/admin")
    ensures IsAuthenticated(s) && RoleOf(s.user) == Some("Employee") ==> AlreadyLoggedInRedirect(s) == Some("/dashboard")
    ensures RoleOf(s.user) != Some("Admin") && RoleOf(s.user) != Some("Employee") ==> AlreadyLoggedInRedirect(s) == None
  {
  }

  /** `onSubmit`. On success: both keys are written, `login` is dispatched
      (writing them again), a success toast is shown, and the page navigates
      by role; reading the role of a null user throws, which the handler's
      catch turns into the failure toast. On failure nothing changes but the
      failure toast. */
  method OnSubmit(auth: AuthSlice, response: Outcome<LoginPayload>)
    returns (sent: Request, toasts: seq<Toast>, nav: Option<string>)
    modifies auth, auth.storage
    ensures sent == Request(Post, "auth/login", None)
    ensures response.Success? ==>
      && auth.State() == Session(response.payload.user, Some(response.payload.token))
      && auth.storage.items == LoginStore(old(auth.storage.items), response.payload)
      && nav == RoleTarget(RoleOf(response.payload.user))
      && toasts == [SuccessToast("Logged in successfully!")]
                   + (if response.payload.user.None? then [ErrorToast(LoginFailed)] else [])
    ensures response.Failure? ==>
      && auth.State() == old(auth.State())
      && auth.storage.items == old(auth.storage.items)
      && nav == None
      && toasts == [ErrorToast(LoginFailed)]
  {
    sent := Request(Post, "auth/login", None);
    match response
    case Failure(_) =>
      toasts := [ErrorToast(LoginFailed)];
      nav := None;
    case Success(p) =>
      auth.storage.SetItem(UserKey, Stringify(p.user));
      auth.storage.SetItem(TokenKey, p.token);
      auth.Login(p);
      LoginStoreIdempotent(old(auth.storage.items), p);
      toasts := [SuccessToast("Logged in successfully!")];
      match p.user
      case None =>
        toasts := toasts + [ErrorToast(LoginFailed)];
        nav := None;
      case Some(u) =>
        nav := RoleTarget(Some(u.role));
  }

  /** The form's submit: the handler runs only when the form passes
      validation; otherwise no request is made and nothing changes. */
  method Submit(auth: AuthSlice, form: Form, isEmail: string -> bool, response: Outcome<LoginPayload>)
    returns (errors: map<string, set<string>>, sent: seq<Request>, toasts: seq<Toast>, nav: Option<string>)
    modifies auth, auth.storage
    ensures errors == Validate(LoginSchema(), form, isEmail)
    ensures errors != map[] ==>
      && sent == [] && toasts == [] && nav == None
      && auth.State() == old(auth.State()) && auth.storage.items == old(auth.storage.items)
    ensures errors == map[] ==> sent == [Request(Post, "auth/login", None)]
    ensures errors == map[] && response.Success? ==>
      && auth.State() == Session(response.payload.user, Some(response.payload.token))
      && auth.storage.items == LoginStore(old(auth.storage.items), response.payload)
      && nav == RoleTarget(RoleOf(response.payload.user))
      && toasts == [SuccessToast("Logged in successfully!")]
                   + (if response.payload.user.None? then [ErrorToast(LoginFailed)] else [])
    ensures errors == map[] && response.Failure? ==>
      && auth.State() == old(auth.State())
      && auth.storage.items == old(auth.storage.items)
      && nav == None
      && toasts == [ErrorToast(LoginFailed)]
  {
    errors := Validate(LoginSchema(), form, isEmail);
    if errors == map[] {
      var request;
      request, toasts, nav := OnSubmit(auth, response);
      sent := [request];
    } else {
      sent, toasts, nav := [], [], None;
    }
  }
}
