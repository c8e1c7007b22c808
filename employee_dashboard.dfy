/** The employee dashboard's controller: the profile being edited, the loaded
    attendance records, the selected month and the loading flag, updated by
    the page's handlers. Every server call is an input outcome and every
    handler runs as one completed step. */
module EmployeeDash {
  import opened Base
  import opened Auth

  datatype Profile = Profile(firstName: string, lastName: string, email: string, role: string)

  datatype ProfileField = FirstName | LastName | Email | Role

  datatype AttendanceAction = CheckIn | Pause | Resume | CheckOut

  const EmptyProfile := Profile("", "", "", "")

  function ProfileOf(u: User): Profile {
    Profile(u.firstName, u.lastName, u.email, u.role)
  }

  function FieldValue(p: Profile, f: ProfileField): string {
    match f
    case FirstName => p.firstName
    case LastName => p.lastName
    case Email => p.email
    case Role => p.role
  }

  /** `setProfile({ ...profile, <field>: value })` */
  function WithField(p: Profile, f: ProfileField, value: string): Profile {
    match f
    case FirstName => p.(firstName := value)
    case LastName => p.(lastName := value)
    case Email => p.(email := value)
    case Role => p.(role := value)
  }

  /** Editing one field changes that field and no other. */
  lemma WithFieldOnlyThatField(p: Profile, f: ProfileField, value: string, g: ProfileField)
    ensures FieldValue(WithField(p, f, value), g) == if g == f then value else FieldValue(p, g)
  {
  }

  /** The key the buttons pass for an action. */
  function ActionName(a: AttendanceAction): string {
    match a
    case CheckIn => "checkin"
    case Pause => "pause"
    case Resume => "resume"
    case CheckOut => "checkout"
  }

  /** `actionMap` */
  function Endpoint(a: AttendanceAction): string {
    match a
    case CheckIn => "/attendance/checkin"
    case Pause => "/attendance/pause"
    case Resume => "/attendance/resume"
    case CheckOut => "/attendance/checkout"
  }

  /** `actionMessages` */
  function SuccessMessage(a: AttendanceAction): string {
    match a
    case CheckIn => "Checked in successfully!"
    case Pause => "Attendance paused!"
    case Resume => "Attendance resumed!"
    case CheckOut => "Checked out successfully!"
  }

  /** Each action posts to "/attendance/" followed by its own name, so the
      four endpoints, and the four messages, are pairwise different. */
  lemma ActionMapsAgree(a: AttendanceAction, b: AttendanceAction)
    ensures Endpoint(a) == "/attendance/" + ActionName(a)
    ensures a != b ==> Endpoint(a) != Endpoint(b) && SuccessMessage(a) != SuccessMessage(b)
  {
  }

  function AttendancePath(month: string): string {
    "/attendance/attendance?month=" + month
  }

  class EmployeeDashboard {
    const auth: AuthSlice
    var profile: Profile
    var loading: bool
    var attendanceData: seq<AttendanceRecord>
    var filterMonth: string

    constructor (auth: AuthSlice)
      ensures this.auth == auth
      ensures profile == EmptyProfile && !loading && attendanceData == [] && filterMonth == "current"
    {
      this.auth := auth;
      profile := EmptyProfile;
      loading := false;
      attendanceData := [];
      filterMonth := "current";
    }

    /** `fetchAttendance(month)`: a success replaces the records, a failure
        keeps them; the loading flag is cleared either way. */
    method FetchAttendance(month: string, outcome: Outcome<seq<AttendanceRecord>>)
      returns (sent: Request, toasts: seq<Toast>)
      modifies this
      ensures sent == Request(Get, AttendancePath(month), Bearer(auth.token))
      ensures attendanceData == if outcome.Success? then outcome.payload else old(attendanceData)
      ensures toasts == if outcome.Success? then [] else [ErrorToast("Failed to fetch attendance data.")]
      ensures !loading
      ensures profile == old(profile) && filterMonth == old(filterMonth)
    {
      loading := true;
      sent := Request(Get, AttendancePath(month), Bearer(auth.token));
      match outcome {
        case Success(records) =>
          attendanceData := records;
          toasts := [];
        case Failure(_) =>
          toasts := [ErrorToast("Failed to fetch attendance data.")];
      }
      loading := false;
    }

    /** The effect run when the session's user changes: the user is copied
        into the profile only when present, and the current month is fetched
        whatever month is selected. */
    method OnUserChange(outcome: Outcome<seq<AttendanceRecord>>)
      returns (sent: Request, toasts: seq<Toast>)
      modifies this
      ensures profile == if auth.user.Some? then ProfileOf(auth.user.value) else old(profile)
      ensures sent == Request(Get, AttendancePath("current"), Bearer(auth.token))
      ensures attendanceData == if outcome.Success? then outcome.payload else old(attendanceData)
      ensures toasts == if outcome.Success? then [] else [ErrorToast("Failed to fetch attendance data.")]
      ensures !loading && filterMonth == old(filterMonth)
    {
      if auth.user.Some? {
        profile := ProfileOf(auth.user.value);
      }
      sent, toasts := FetchAttendance("current", outcome);
    }

    /** The month selector: the new month is remembered and exactly that
        month is requested. */
    method ChangeFilter(month: string, outcome: Outcome<seq<AttendanceRecord>>)
      returns (sent: Request, toasts: seq<Toast>)
      modifies this
      ensures filterMonth == month
      ensures sent == Request(Get, AttendancePath(month), Bearer(auth.token))
      ensures attendanceData == if outcome.Success? then outcome.payload else old(attendanceData)
      ensures toasts == if outcome.Success? then [] else [ErrorToast("Failed to fetch attendance data.")]
      ensures !loading && profile == old(profile)
    {
      filterMonth := month;
      sent, toasts := FetchAttendance(month, outcome);
    }

    /** One input of the profile form. */
    method EditProfile(field: ProfileField, value: string)
      modifies this
      ensures profile == WithField(old(profile), field, value)
      ensures loading == old(loading) && attendanceData == old(attendanceData) && filterMonth == old(filterMonth)
    {
      profile := WithField(profile, field, value);
    }

    /** `handleProfileUpdate`: sends the profile; neither the session's user
        nor its token changes, whatever the outcome. */
    method HandleProfileUpdate(outcome: Outcome<()>) returns (sent: Request, toasts: seq<Toast>)
      modifies this
      ensures sent == Request(Put, "/auth/profile", Bearer(auth.token))
      ensures toasts == if outcome.Success? then [SuccessToast("Profile updated successfully!")]
                        else [ErrorToast("Failed to update profile!")]
      ensures auth.State() == old(auth.State())
      ensures !loading && profile == old(profile) && attendanceData == old(attendanceData)
      ensures filterMonth == old(filterMonth)
    {
      loading := true;
      sent := Request(Put, "/auth/profile", Bearer(auth.token));
      toasts := if outcome.Success? then [SuccessToast("Profile updated successfully!")]
                else [ErrorToast("Failed to update profile!")];
      loading := false;
    }

    /** `handleAttendanceAction`: posts to the action's endpoint; only on
        success does it refetch, with the selected month. A failed action
        leaves the records as they were. */
    method HandleAttendanceAction(action: AttendanceAction, outcome: Outcome<()>,
                                  refetch: Outcome<seq<AttendanceRecord>>)
      returns (sent: seq<Request>, toasts: seq<Toast>)
      modifies this
      ensures |sent| >= 1 && sent[0] == Request(Post, Endpoint(action), Bearer(auth.token))
      ensures outcome.Success? ==>
        && sent == [Request(Post, Endpoint(action), Bearer(auth.token)),
                    Request(Get, AttendancePath(old(filterMonth)), Bearer(auth.token))]
        && attendanceData == (if refetch.Success? then refetch.payload else old(attendanceData))
        && toasts == [SuccessToast(SuccessMessage(action))]
                     + (if refetch.Success? then [] else [ErrorToast("Failed to fetch attendance data.")])
      ensures outcome.Failure? ==>
        && sent == [Request(Post, Endpoint(action), Bearer(auth.token))]
        && attendanceData == old(attendanceData)
        && toasts == [ErrorToast("Failed to " + ActionName(action) + " attendance!")]
      ensures !loading && profile == old(profile) && filterMonth == old(filterMonth)
    {
      loading := true;
      var post := Request(Post, Endpoint(action), Bearer(auth.token));
      if outcome.Success? {
        var get, fetchToasts := FetchAttendance(filterMonth, refetch);
        sent := [post, get];
        toasts := [SuccessToast(SuccessMessage(action))] + fetchToasts;
      } else {
        sent := [post];
        toasts := [ErrorToast("Failed to " + ActionName(action) + " attendance!")];
      }
      loading := false;
    }
  }
}
