/** Values shared by every part of the attendance client model: the records the
    remote service hands out, the settled outcome of a call to it, the requests
    the client issues and the toast notices it shows. */
module Base {

  datatype Option<T> = None | Some(value: T)

  /** The settled result of one asynchronous step: a call to the remote service
      resolves with a payload or rejects with a reason (the response body). */
  datatype Outcome<T> = Success(payload: T) | Failure(reason: string)

  /** A toast notice. */
  datatype Toast = SuccessToast(message: string) | ErrorToast(message: string)

  datatype Verb = Get | Post | Put

  /** One call through the shared HTTP client: verb, path relative to the base
      URL, and the Authorization header (absent on login and register). */
  datatype Request = Request(verb: Verb, path: string, authorization: Option<string>)

  /** A user record as the remote service issues it. The role is a free-form
      string: the client compares it by exact equality. */
  datatype User = User(id: string, firstName: string, lastName: string, email: string, role: string)

  /** An attendance record as the service returns it for display. */
  datatype AttendanceRecord = AttendanceRecord(
    id: string, firstName: string, lastName: string, email: string,
    checkInTime: string, checkOutTime: string,
    totalWorkHours: real, totalPauseTime: real, status: string)

  /** The authentication state: a user record or null, a token or null. */
  datatype Session = Session(user: Option<User>, token: Option<string>)

  /** JavaScript truthiness of a string-or-null value: present and non-empty. */
  predicate Truthy(v: Option<string>) {
    v.Some? && v.value != ""
  }

  /** What a template literal `${v}` renders for a string-or-null value. */
  function JsText(v: Option<string>): string {
    match v
    case None => "null"
    case Some(s) => s
  }

  /** The Authorization header every authenticated call builds as `Bearer ${token}`. */
  function Bearer(token: Option<string>): Option<string> {
    Some("Bearer " + JsText(token))
  }

  /** Reading a key of a string map, null when the key is absent. */
  function Lookup(m: map<string, string>, key: string): Option<string> {
    if key in m then Some(m[key]) else None
  }
}
