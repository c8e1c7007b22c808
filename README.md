# EMS attendance client: a Dafny model of its session, routing, forms and dashboards

The client is a single-page application for employee attendance. Employees
log in, check in, pause, resume and check out, and edit their profile.
Administrators browse each employee's attendance records by month, edit one
record at a time and export the records as CSV. This project models the
client's core in Dafny and proves properties of the model:

- the session reducer (`Auth`): the user record and the token, initialised
  from the browser's key-value store and written through to it by `login`
  and `logout`;
- the `JSON.stringify` / `JSON.parse` pair that persists the user (`Json`),
  as a fixed-shape encoding with a proved round trip. The key-value store
  itself is `Storage`;
- the notification reducer and its two thunks (`Notifications`);
- the route guard (`Gate`) and the route table (`Routes`);
- the navigation bar (`Navbar`), the login page (`LoginPage`) and the
  register page (`RegisterPage`), with both form schemas (`Validation`);
- the employee dashboard (`EmployeeDash`) and the admin dashboard
  (`AdminDash`).

Reducers, stores and page controllers are classes whose methods update their
fields. Decisions that only compute a value are functions, and the
properties relating several of them are lemmas.

Every server call is an input of its handler: an `Outcome` that is either the
response body or a failure. The notification fetch uses `Settled` instead,
whose failure carries the error body or none, because the reducer stores that
body. A handler runs as one completed step. It returns
the requests it issued, with their Authorization header, the toasts it
showed, in order, and where it navigated. The email-format test of the
validation library is a parameter `isEmail`.

Four role decisions are compared against one reference, `Roles.RoleHome`:
"/admin" for the role "Admin" and "/dashboard" for anything else. These are
the navigation bar's logo, the register page's effect, the login page and the
route guard.

Where the code departs from what it evidently intends, the model follows the code:

- initialisation parses the stored user unguarded, so a malformed text makes
  start-up fail (`Auth.MalformedUserFails`);
- the user and the token are read independently, so a token without a user
  can occur (`Auth.TokenWithoutUser`);
- a check-in, pause, resume or check-out refetches the records only when it
  succeeds;
- a marked-as-read notification is removed from the list, together with
  every other entry carrying the same id;
- after login, a role other than "Admin" and "Employee" navigates nowhere.

## Model

| member | source | states |
|---|---|---|
| Storage.LocalStorage.GetItem | src/redux/authSlice.js:5-6 | the value stored under a key, or none when the key is absent; its uses are stated by AdminDash.AdminDashboard.FetchEmployees, AdminDash.AdminDashboard.FetchAttendanceRecords and AdminDash.AdminDashboard.SaveChanges, which read the token through it |
| Storage.LocalStorage.SetItem | src/redux/authSlice.js:17-18 | the store maps the key to the value; every other key is unchanged |
| Storage.LocalStorage.RemoveItem | src/redux/authSlice.js:24-25 | the key is gone; every other key is unchanged |
| Json.ReadString | src/redux/authSlice.js:5 | reads a JSON string literal: decodes every escape the JSON grammar allows and rejects other escapes and raw control characters; its properties are Json.ReadEscaped and Json.ReadStringExamples |
| Json.ReadEscaped | src/redux/authSlice.js:5-17 | reading the escaped text of any string, followed by a closing quote, gives back that string and the rest of the text |
| Json.ReadStringExamples | src/redux/authSlice.js:5 | the escape `\q` and a raw line feed are rejected; `\n` and `\u0041` decode; a lone surrogate escape is rejected |
| Json.Stringify | src/redux/authSlice.js:17 | the text `JSON.stringify` writes for a user or null; its property is Json.ParseStringify |
| Json.Parse | src/redux/authSlice.js:5 | `JSON.parse` of a stored text: null, a user, or a syntax error; its property is Json.ParseStringify |
| Json.ParseStringify | src/redux/authSlice.js:5-17 | parsing the serialized user, or null, gives back that user or null |
| Auth.InitialState | src/redux/authSlice.js:4-7 | the initial session built from the store, or the parse failure; its properties are Auth.ReloadAfterLogin, Auth.ReloadAfterLogout, Auth.InitialTokenIndependent, Auth.MalformedUserFails and Auth.TokenWithoutUser |
| Auth.LoginStore | src/redux/authSlice.js:17-18 | the store after the two writes of `login`; its properties are Auth.LoginWritesThrough and Auth.LoginStoreIdempotent |
| Auth.LogoutStore | src/redux/authSlice.js:24-25 | the store after the two removals of `logout`; its properties are Auth.LogoutClears and Auth.LogoutIdempotent |
| Auth.AuthSlice.constructor | src/redux/authSlice.js:4-7 | the session is the stored user, parsed, and the stored token when it is non-empty; it is defined only when the stored user text parses |
| Auth.AuthSlice.Login | src/redux/authSlice.js:13-19 | the session becomes the payload's user and token; the store gains both keys |
| Auth.AuthSlice.Logout | src/redux/authSlice.js:20-26 | the session becomes null and null; both keys leave the store |
| Auth.LoginWritesThrough | src/redux/authSlice.js:13-19 | after login, "user" holds the serialized user and "token" holds the token; the key set gains exactly these two; other keys keep their values |
| Auth.LogoutClears | src/redux/authSlice.js:20-26 | after logout, neither key is stored; the key set loses exactly these two; other keys keep their values |
| Auth.LogoutIdempotent | src/redux/authSlice.js:20-26 | logging out twice gives the same store as logging out once |
| Auth.LoginStoreIdempotent | src/redux/authSlice.js:17-18 | writing the same login twice gives the store of one write |
| Auth.ReloadAfterLogin | src/redux/authSlice.js:4-19 | reinitialising from the store that login wrote gives back the user, and the token when it is non-empty |
| Auth.ReloadAfterLogout | src/redux/authSlice.js:4-26 | reinitialising after logout gives the logged-out session |
| Auth.InitialTokenIndependent | src/redux/authSlice.js:6 | the initial token is null exactly when the stored token is absent or empty; otherwise it is the stored token |
| Auth.MalformedUserFails | src/redux/authSlice.js:5 | a stored user text that does not parse makes initialisation fail, whatever the token |
| Auth.TruncatedUserFails | src/redux/authSlice.js:5 | the stored user text "{" makes initialisation fail |
| Auth.TokenWithoutUser | src/redux/authSlice.js:5-6 | a stored token without a stored user gives a session with a token and no user |
| Notifications.RemoveById | src/redux/notificationSlice.js:51 | an entry stays exactly when it was there and its id differs; the list does not grow |
| Notifications.RemoveByIdKeepsOrder | src/redux/notificationSlice.js:51 | the remaining entries keep their relative order |
| Notifications.RemoveByIdCounts | src/redux/notificationSlice.js:51 | no entry with the id is left; every other entry keeps its number of copies |
| Notifications.RemoveAbsentId | src/redux/notificationSlice.js:51 | an id that is not in the list leaves the list unchanged |
| Notifications.RemoveByIdIdempotent | src/redux/notificationSlice.js:51 | marking the same id twice gives the list of marking it once |
| Notifications.NotificationSlice.constructor | src/redux/notificationSlice.js:31-35 | the list starts empty, not loading, with no error |
| Notifications.NotificationSlice.FetchPending | src/redux/notificationSlice.js:39-41 | loading is set; nothing else changes |
| Notifications.NotificationSlice.FetchFulfilled | src/redux/notificationSlice.js:42-45 | loading ends; the list is the payload; an earlier error stays |
| Notifications.NotificationSlice.FetchRejected | src/redux/notificationSlice.js:46-49 | loading ends; the error is the payload, which may be undefined; the list stays |
| Notifications.NotificationSlice.MarkReadFulfilled | src/redux/notificationSlice.js:50-52 | the list loses the entries with the id; loading and the error stay |
| Notifications.NotificationSlice.FetchNotifications | src/redux/notificationSlice.js:6-15 | issues GET "/notifications" with the bearer token; a success sets the list; a failure sets the error to the error response's body, or to undefined when the failure has no response or no body; loading ends |
| Base.Bearer | src/redux/notificationSlice.js:9 | the Authorization header `Bearer ${token}`, with a missing token written as "null"; its uses are stated by Notifications.NotificationSlice.FetchNotifications and the employee dashboard's request-issuing methods |
| Notifications.NotificationSlice.MarkNotificationAsRead | src/redux/notificationSlice.js:18-27 | issues PUT "/notifications/{id}/read"; only a success removes the id; a failure changes nothing |
| Roles.IsAuthenticated | src/components/ProtectedRoute.js:11 | a session is authenticated exactly when its token is truthy; its properties are Gate.Guard and LoginPage.AlreadyLoggedInRedirectCases |
| Roles.RoleOf | src/components/ProtectedRoute.js:13 | the role of the present user, or none without a user; its properties are Gate.GuardMismatch and Navbar.LogoTargetIsRoleHome |
| Gate.Guard | src/components/ProtectedRoute.js:6-26 | an unauthenticated session goes to "/login"; a session that is allowed through is authenticated; the only redirects are "/login", "/admin" and "/dashboard" |
| Gate.GuardIntended | src/components/ProtectedRoute.js:15-23 | the same guarantees as Guard, with the mismatch sent to the role's home screen |
| Gate.GuardAllows | src/components/ProtectedRoute.js:15-25 | an authenticated session passes when no role is required or when its role is the required one |
| Gate.GuardMismatch | src/components/ProtectedRoute.js:20-23 | an authenticated session with the wrong role goes to "/admin" exactly when its role is lower-case "admin", and to "/dashboard" otherwise, including with no user |
| Gate.GuardVersusRoleHome | src/components/ProtectedRoute.js:20-23 | on a role mismatch, the guard as written agrees with the role's home exactly when the role is neither "Admin" nor "admin"; the corrected guard always agrees |
| Gate.GuardsDiffer | src/components/ProtectedRoute.js:20-23 | the two guards differ exactly on an authenticated mismatch whose role is "Admin" or "admin" |
| Routes.RouteFor | src/App.js:17-38 | maps the five declared paths to their elements and every other path to the catch-all; its properties are Routes.PublicRoutes, Routes.GuardedRoutes and Routes.UnknownPathsGoHome |
| Routes.Resolve | src/App.js:17-38 | the view for a path with the guard as written; its properties are the Routes lemmas below |
| Routes.ResolveIntended | src/App.js:17-38 | the view for a path with the corrected guard; its properties are Routes.IntendedRedirectSettles and Routes.IntendedRedirectLoopsOutsideIssued |
| Routes.PublicRoutes | src/App.js:18-20 | "/", "/login" and "/register" render their pages for every session |
| Routes.GuardedRoutes | src/App.js:21-36 | "/dashboard" requires "Employee" and "/admin" requires "Admin"; each renders exactly for an authenticated session with that role |
| Routes.UnknownPathsGoHome | src/App.js:37 | every other path navigates to "/" |
| Routes.AdminDashboardRedirectsToItself | src/components/ProtectedRoute.js:20-23 | an authenticated "Admin" session opening "/dashboard" is sent to "/dashboard" again, and again |
| Routes.IntendedRedirectSettles | src/App.js:18-37 | with the corrected guard and a session the service issues, every redirect lands on a path that renders |
| Routes.IntendedRedirectLoopsOutsideIssued | src/App.js:21-28 | with the corrected guard, an authenticated session with no user or a role other than "Admin" and "Employee" is still sent from "/dashboard" to "/dashboard"; such a session is not issued |
| Navbar.LogoTarget | src/components/Navbar.js:24-36 | where the logo leads; its property is Navbar.LogoTargetIsRoleHome |
| Navbar.ShownButton | src/components/Navbar.js:55-67 | which button the bar shows; its property is Navbar.ButtonChoice |
| Navbar.LogoTargetIsRoleHome | src/components/Navbar.js:24-36 | the logo leads a user to the home screen of the user's role, and leads to "/" with no user |
| Navbar.ButtonChoice | src/components/Navbar.js:55-67 | Logout shows exactly when there is a user; Register exactly with no user on "/login"; Login otherwise |
| Navbar.TokenWithoutUserLooksLoggedOut | src/components/Navbar.js:8-67 | a session with a token and no user is authenticated, yet the bar offers Login and the logo leads to "/" |
| Navbar.HandleLogout | src/components/Navbar.js:13-18 | the session becomes logged out; both keys leave the store; the page navigates to "/login" |
| LoginPage.RoleTarget | src/pages/Login.js:50-54 | where the login page sends a role; its property is LoginPage.RoleTargetVersusRoleHome |
| LoginPage.AlreadyLoggedInRedirect | src/pages/Login.js:21-30 | where the login page sends an already logged-in visitor; its property is LoginPage.AlreadyLoggedInRedirectCases |
| LoginPage.RoleTargetVersusRoleHome | src/pages/Login.js:50-54 | the login page navigates exactly for "Admin" and "Employee", and then to that role's home screen |
| LoginPage.AlreadyLoggedInRedirectCases | src/pages/Login.js:21-30 | an unauthenticated visitor stays; an authenticated one goes to "/admin" for "Admin" and "/dashboard" for "Employee"; any other role stays |
| LoginPage.OnSubmit | src/pages/Login.js:36-59 | on success: the session and both keys hold the response, a success toast shows, and the page navigates by role; a null user adds the failure toast. On failure: nothing changes but the failure toast |
| LoginPage.Submit | src/pages/Login.js:32-65 | the errors are the login schema's; with any error no request is made and nothing changes; with none, the login request is made and the session, the store, the toasts and the navigation are those of OnSubmit, for success and for failure |
| RegisterPage.AlreadyLoggedInRedirect | src/pages/Register.js:27-36 | where the register page sends an already logged-in visitor; its property is RegisterPage.RedirectIsRoleHome |
| RegisterPage.RedirectIsRoleHome | src/pages/Register.js:27-36 | every authenticated visitor is sent to the home screen of the visitor's role; others stay |
| RegisterPage.OnSubmit | src/pages/Register.js:38-56 | on success: the session and both keys hold the response, and the page goes to "/dashboard" whatever the role. On failure: nothing changes but the failure toast |
| RegisterPage.Submit | src/pages/Register.js:14-65 | the errors are the register schema's, as written; with any error no request is made and nothing changes; with none, the register request is made and the session, the store, the toasts and the navigation are those of OnSubmit, for success and for failure |
| Validation.Breaks | src/utils/validationSchemas.js:3-16 | whether a field's value breaks one rule: required, minimum length, email format or equal to another field; its properties are the field lemmas below |
| Validation.Validate | src/utils/validationSchemas.js:3-16 | every schema field that breaks a rule, with its messages; its properties are Validation.ValidateAt and Validation.ValidateEmpty |
| Validation.LoginSchema | src/utils/validationSchemas.js:3-6 | the login schema; its property is Validation.LoginValidation |
| Validation.RegisterSchema | src/utils/validationSchemas.js:8-16 | the register schema as written; its property is Validation.RegisterPageFormAlwaysRejected |
| Validation.IntendedRegisterSchema | src/utils/validationSchemas.js:8-16 | the register schema keyed by the page's field names; its property is Validation.IntendedRegisterValidation |
| Validation.RegisterPageForm | src/pages/Register.js:65-91 | the record the register page submits, keyed by its input names; its properties are Validation.RegisterPageFormAlwaysRejected and Validation.IntendedRegisterValidation |
| Validation.ValidateAt | src/utils/validationSchemas.js:3-16 | a field is reported, with its messages, exactly when it is in the schema and breaks a rule |
| Validation.ValidateEmpty | src/utils/validationSchemas.js:3-16 | a form passes exactly when no schema field breaks a rule |
| Validation.EmailErrors | src/utils/validationSchemas.js:4 | the email gets "required" when undefined or empty, the format message when malformed, and nothing otherwise |
| Validation.PasswordErrors | src/utils/validationSchemas.js:5 | an undefined password gets only "required"; an empty one gets both messages; a short one gets only the length message |
| Validation.ConfirmErrors | src/utils/validationSchemas.js:13-15 | a defined confirmation that differs from the password gets the mismatch message; an undefined or empty one gets "required" |
| Validation.NameErrors | src/utils/validationSchemas.js:9-10 | a name field gets its message exactly when undefined or empty |
| Validation.LoginValidation | src/utils/validationSchemas.js:3-6 | the login form passes exactly when the email is non-empty and well-formed and the password has at least 6 characters; it also states each field's messages |
| Validation.BadLoginExample | src/utils/validationSchemas.js:3-6 | a malformed email and a 3-character password give exactly one message each |
| Validation.RegisterPageFormAlwaysRejected | src/utils/validationSchemas.js:8-10 | every record the register page submits fails "firtname" and "lastname" as required, so it never validates |
| Validation.IntendedRegisterValidation | src/utils/validationSchemas.js:8-16 | with the page's keys, a register form passes exactly when both names are non-empty, the email is well-formed, the password has at least 6 characters and the confirmation equals it |
| Validation.RegisterConfirmMismatch | src/utils/validationSchemas.js:13-15 | a defined confirmation that differs from the password is reported under both register schemas |
| EmployeeDash.WithField | src/pages/EmployeeDashboard.js:123-147 | the profile after one input's change; its property is EmployeeDash.WithFieldOnlyThatField |
| EmployeeDash.ProfileOf | src/pages/EmployeeDashboard.js:37-42 | the profile copied from the signed-in user; its use is stated by EmployeeDash.EmployeeDashboard.OnUserChange |
| EmployeeDash.ActionName | src/pages/EmployeeDashboard.js:197-224 | the name each attendance button passes to the handler; its properties are EmployeeDash.ActionMapsAgree and EmployeeDash.EmployeeDashboard.HandleAttendanceAction |
| EmployeeDash.AttendancePath | src/pages/EmployeeDashboard.js:47 | the query path of a month's attendance fetch; its uses are stated by EmployeeDash.EmployeeDashboard.FetchAttendance and EmployeeDash.EmployeeDashboard.ChangeFilter |
| EmployeeDash.Endpoint | src/pages/EmployeeDashboard.js:74-79 | the endpoint of each attendance action; its property is EmployeeDash.ActionMapsAgree |
| EmployeeDash.SuccessMessage | src/pages/EmployeeDashboard.js:80-85 | the success message of each attendance action; its property is EmployeeDash.ActionMapsAgree |
| EmployeeDash.WithFieldOnlyThatField | src/pages/EmployeeDashboard.js:123-147 | editing one profile field changes that field and no other |
| EmployeeDash.ActionMapsAgree | src/pages/EmployeeDashboard.js:74-85 | each action posts to "/attendance/" followed by its own name; distinct actions have distinct endpoints and distinct messages |
| EmployeeDash.EmployeeDashboard.constructor | src/pages/EmployeeDashboard.js:29-32 | the profile starts empty, not loading, with no records, for the month "current" |
| EmployeeDash.EmployeeDashboard.FetchAttendance | src/pages/EmployeeDashboard.js:44-56 | issues GET for the month; a success replaces the records and a failure keeps them and shows a toast; loading ends |
| EmployeeDash.EmployeeDashboard.OnUserChange | src/pages/EmployeeDashboard.js:37-42 | a present user is copied into the profile; the month "current" is fetched whatever month is selected |
| EmployeeDash.EmployeeDashboard.ChangeFilter | src/pages/EmployeeDashboard.js:160-163 | the month is remembered and exactly that month is fetched |
| EmployeeDash.EmployeeDashboard.EditProfile | src/pages/EmployeeDashboard.js:123-147 | the profile gets the new value in that one field |
| EmployeeDash.EmployeeDashboard.HandleProfileUpdate | src/pages/EmployeeDashboard.js:58-70 | issues PUT "/auth/profile"; shows the success or the failure toast; the session does not change |
| EmployeeDash.EmployeeDashboard.HandleAttendanceAction | src/pages/EmployeeDashboard.js:72-97 | posts to the action's endpoint; only a success shows the action's message and refetches the selected month; a failure shows "Failed to {action} attendance!" and keeps the records |
| AdminDash.CsvHeaders | src/pages/AdminDashboard.js:113-122 | the export's header list; its property is AdminDash.CsvHeadersMatchTable |
| AdminDash.RecordsPath | src/pages/AdminDashboard.js:63-79 | the query path of a records fetch; its uses are stated by AdminDash.AdminDashboard.FetchAttendanceRecords |
| AdminDash.CsvHeadersMatchTable | src/pages/AdminDashboard.js:113-122 | the export has eight columns with distinct keys, titled as the table's columns are, in the same order, without "Actions" |
| AdminDash.AdminDashboard.Authorization | src/pages/AdminDashboard.js:49 | the header built from the token the store holds at the time of the call; its uses are stated by AdminDash.AdminDashboard.FetchEmployees, AdminDash.AdminDashboard.FetchAttendanceRecords and AdminDash.AdminDashboard.SaveChanges |
| AdminDash.AdminDashboard.constructor | src/pages/AdminDashboard.js:35-41 | no employees, no records, not loading, no employee selected, month "current", no record, dialog closed |
| AdminDash.AdminDashboard.FetchEmployees | src/pages/AdminDashboard.js:44-61 | issues GET "/employees" with the stored token; a success sets the employees and a failure keeps them and shows a toast |
| AdminDash.AdminDashboard.FetchAttendanceRecords | src/pages/AdminDashboard.js:63-79 | issues GET for the month and the employee id, where a null id renders as "null"; a success replaces the records and a failure keeps them and shows a toast; loading ends |
| AdminDash.AdminDashboard.SelectEmployee | src/pages/AdminDashboard.js:81-84 | the employee is remembered and that employee's records for the selected month are fetched |
| AdminDash.AdminDashboard.ChangeMonth | src/pages/AdminDashboard.js:86-92 | the month is always remembered; records are fetched only when a non-empty employee id is selected |
| AdminDash.AdminDashboard.EditRecord | src/pages/AdminDashboard.js:94-97 | the record is selected and the dialog opens |
| AdminDash.AdminDashboard.CloseDialog | src/pages/AdminDashboard.js:208-235 | the dialog closes; nothing else changes |
| AdminDash.AdminDashboard.SaveChanges | src/pages/AdminDashboard.js:99-111 | with no record: the failure toast and no request. Success: PUT the record, close the dialog, refetch the selected employee and month. Failure: the dialog stays open and nothing is refetched |

## Left out

- The HTTP client, its base URL and its transport are not modelled. A request is its verb, its path and its Authorization header.
- Request bodies are not modelled: the login and register form data, the profile in the profile update, and the edited record in the record update.
- Concurrency is not modelled. Handlers whose fetches are not awaited, and responses arriving out of order, are modelled as one completed step each.
- A successful response body missing the fields the code reads is not modelled. The exception is the null user after login, which is modelled.
- Json.ParseStringify: the text is a fixed-shape subset of JSON. The keys of a user are in a fixed order, with no whitespace, and a stored user holds only its five string fields. Every text the parser accepts is valid JSON. A valid JSON text of another shape, for instance with other spacing, key order or fields, is treated as a parse failure.
- Json.ReadString: a `\u` escape of a surrogate code unit is rejected. `JSON.parse` accepts it, but a Dafny character cannot hold a surrogate.
- Validation.EmailErrors: the email-format regular expression of the validation library is a parameter, not its actual pattern.
- Which single message the form library shows per field is not modelled. The model gives each field's full set of messages.
- String lengths count characters, not UTF-16 code units.
- Routes.Resolve matches paths exactly. The router's handling of case and trailing slashes is not modelled.
- Rendering is not modelled: the layout, the loading spinner, and date and number formatting in the tables.
- The CSV file itself is not modelled. Only its header list is, against the table's columns.
- Editing the check-in and check-out times in the admin dialog is not modelled. It involves date parsing and ISO formatting.
- Only the four action names of the dashboard buttons are modelled. Any other string passed to the action handler is not.
- Console logging is not modelled: the `console.error` calls in src/pages/Login.js:56 and src/pages/AdminDashboard.js:53, 74 and 108 write only to the developer console.
- The `logout` import that both dashboards never use has nothing to model.
- The following are not part of this model:
  - the store set-up in src/redux/store.js;
  - the notification list component;
  - the landing page;
  - the authentication context provider;
  - the form-validation hook;
  - the HTTP client's configuration.

## Findings

| source | as written | input that shows it | evidently intended | confidence | as-written member | corrected member |
|---|---|---|---|---|---|---|
| src/components/ProtectedRoute.js:22 | a role mismatch goes to "/admin" only for lower-case "admin"; the service issues "Admin" | an authenticated session whose user has role "Admin" opens "/dashboard": it is redirected to "/dashboard" again, without end | redirect to the role's home, "/admin" for "Admin" | not executed | Routes.AdminDashboardRedirectsToItself | Gate.GuardIntended |
| src/utils/validationSchemas.js:9-10 | the register schema requires "firtname" and "lastname"; the register page registers "firstName" and "lastName" | any register form, e.g. "Ann", "Lee", "ann@x.io", "secret1", "secret1": both name fields fail as required | keys "firstName" and "lastName" | not executed | Validation.RegisterPageFormAlwaysRejected | Validation.IntendedRegisterValidation |

For the guard, the property proved about the corrected definition is
`Routes.IntendedRedirectSettles`: for every session the service issues, every
redirect lands on a page that renders. Outside those sessions the correction
does not settle. An authenticated session with no user, or with some other
role, still loops on "/dashboard" (`Routes.IntendedRedirectLoopsOutsideIssued`).
`Gate.GuardsDiffer` pins the difference between the two guards. For the
schema, `IntendedRegisterValidation` states the intended acceptance condition
over `IntendedRegisterSchema`. `RegisterPage.Submit` keeps the schema as
written, because that is what the page runs.
