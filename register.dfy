/** The register page: the redirect of an already logged-in user, and the
    submit handler, which always leads to the employee dashboard. */
module RegisterPage {
  import opened Base
  import opened Roles
  import opened Json
  import opened Auth
  import opened Validation

  /** The effect run on render: an authenticated visitor goes to "/admin"
      when the role is "Admin" and to "/dashboard" otherwise, with or without
      a user. */
  function AlreadyLoggedInRedirect(s: Session): Option<string> {
    if !IsAuthenticated(s) then None
    else if RoleOf(s.user) == Some(AdminRole) then Some("/admin")
    else Some("/dashboard")
  }

  /** Against the role-home reference: the register page sends every
      authenticated visitor to the home screen of the visitor's role. */
  lemma RedirectIsRoleHome(s: Session)
    ensures AlreadyLoggedInRedirect(s) == if IsAuthenticated(s) then Some(RoleHome(RoleOf(s.user))) else None
  {
  }

  /** `onSubmit`. On success: both keys are written, `login` is dispatched,
      and the page goes to "/dashboard" whatever role the service returned.
      On failure nothing changes but the failure toast. */
  method OnSubmit(auth: AuthSlice, response: Outcome<LoginPayload>)
    returns (sent: Request, toasts: seq<Toast>, nav: Option<string>)
    modifies auth, auth.storage
    ensures sent == Request(Post, "auth/register", None)
    ensures response.Success? ==>
      && auth.State() == Session(response.payload.user, Some(response.payload.token))
      && auth.storage.items == LoginStore(old(auth.storage.items), response.payload)
      && nav == Some("/dashboard")
      && toasts == [SuccessToast("Registered successfully!")]
    ensures response.Failure? ==>
      && auth.State() == old(auth.State())
      && auth.storage.items == old(auth.storage.items)
      && nav == None
      && toasts == [ErrorToast("Registration failed!")]
  {
    sent := Request(Post, "auth/register", None);
    match response
    case Failure(_) =>
      toasts := [ErrorToast("Registration failed!")];
      nav := None;
    case Success(p) =>
      auth.storage.SetItem(UserKey, Stringify(p.user));
      auth.storage.SetItem(TokenKey, p.token);
      auth.Login(p);
      LoginStoreIdempotent(old(auth.storage.items), p);
      toasts := [SuccessToast("Registered successfully!")];
      nav := Some("/dashboard");
  }

  /** The form's submit with the schema as written: the handler runs only
      when the form passes validation, which no record from this page does. */
  method Submit(auth: AuthSlice, form: Form, isEmail: string -> bool, response: Outcome<LoginPayload>)
    returns (errors: map<string, set<string>>, sent: seq<Request>, toasts: seq<Toast>, nav: Option<string>)
    modifies auth, auth.storage
    ensures errors == Validate(RegisterSchema(), form, isEmail)
    ensures errors != map[] ==>
      && sent == [] && toasts == [] && nav == None
      && auth.State() == old(auth.State()) && auth.storage.items == old(auth.storage.items)
    ensures errors == map[] ==> sent == [Request(Post, "auth/register", None)]
    ensures errors == map[] && response.Success? ==>
      && auth.State() == Session(response.payload.user, Some(response.payload.token))
      && auth.storage.items == LoginStore(old(auth.storage.items), response.payload)
      && nav == Some("/dashboard")
      && toasts == [SuccessToast("Registered successfully!")]
    ensures errors == map[] && response.Failure? ==>
      && auth.State() == old(auth.State())
      && auth.storage.items == old(auth.storage.items)
      && nav == None
      && toasts == [ErrorToast("Registration failed!")]
  {
    errors := Validate(RegisterSchema(), form, isEmail);
    if errors == map[] {
      var request;
      request, toasts, nav := OnSubmit(auth, response);
      sent := [request];
    } else {
      sent, toasts, nav := [], [], None;
    }
  }
}
