/** The admin dashboard's controller: the employee list, the attendance
    records of the selected employee and month, the record being edited and
    whether the edit dialog is open. Every server call is an input outcome,
    every handler one completed step; the token is read from the key-value
    store on each call. */
module AdminDash {
  import opened Base
  import opened Auth
  import opened Storage

  datatype CsvHeader = CsvHeader(title: string, field: string)

  /** The header list handed to the CSV export. */
  function CsvHeaders(): seq<CsvHeader> {
    [
      CsvHeader("First Name", "firstName"),
      CsvHeader("Last Name", "lastName"),
      CsvHeader("Email", "email"),
      CsvHeader("Check-In Time", "checkInTime"),
      CsvHeader("Check-Out Time", "checkOutTime"),
      CsvHeader("Total Working Hours", "totalWorkHours"),
      CsvHeader("Total Pause Time", "totalPauseTime"),
      CsvHeader("Status", "status")]
  }

  /** The column titles of the records table on the page. */
  const TableColumns: seq<string> := [
    "First Name", "Last Name", "Email", "Check-In Time", "Check-Out Time",
    "Total Working Hours", "Total Pause Time", "Status", "Actions"]

  function Titles(hs: seq<CsvHeader>): seq<string> {
    seq(|hs|, i requires 0 <= i < |hs| => hs[i].title)
  }

  /** The export has eight columns with distinct keys, titled as the table's
      columns are, in the table's order, without its "Actions" column. */
  lemma CsvHeadersMatchTable()
    ensures |CsvHeaders()| == 8
    ensures Titles(CsvHeaders()) == TableColumns[..8] && TableColumns[8] == "Actions"
    ensures forall i, j :: 0 <= i < j < |CsvHeaders()| ==> CsvHeaders()[i].field != CsvHeaders()[j].field
  {
  }

  function RecordsPath(employeeId: Option<string>, month: string): string {
    "/attendance/admin?month=" + month + "&userId=" + JsText(employeeId)
  }

  const SaveFailed := "Failed to update attendance record!"
  const RecordsFailed := "Failed to fetch attendance records."

  class AdminDashboard {
    const storage: LocalStorage
    var employees: seq<User>
    var attendanceRecords: seq<AttendanceRecord>
    var loading: bool
    var selectedEmployee: Option<string>
    var selectedMonth: string
    var selectedRecord: Option<AttendanceRecord>
    var isOpen: bool

    /** The Authorization header each call builds from the stored token. */
    function Authorization(): Option<string>
      reads this, storage
    {
      Bearer(storage.GetItem(TokenKey))
    }

    constructor (storage: LocalStorage)
      ensures this.storage == storage
      ensures employees == [] && attendanceRecords == [] && !loading
      ensures selectedEmployee == None && selectedMonth == "current" && selectedRecord == None && !isOpen
    {
      this.storage := storage;
      employees := [];
      attendanceRecords := [];
      loading := false;
      selectedEmployee := None;
      selectedMonth := "current";
      selectedRecord := None;
      isOpen := false;
    }

    /** The effect run on mount: a success fills the employee list, a
        failure leaves it as it was. */
    method FetchEmployees(outcome: Outcome<seq<User>>) returns (sent: Request, toasts: seq<Toast>)
      modifies this
      ensures sent == Request(Get, "/employees", Authorization())
      ensures employees == if outcome.Success? then outcome.payload else old(employees)
      ensures toasts == if outcome.Success? then [] else [ErrorToast("Failed to fetch employees.")]
      ensures !loading
      ensures attendanceRecords == old(attendanceRecords) && selectedEmployee == old(selectedEmployee)
      ensures selectedMonth == old(selectedMonth) && selectedRecord == old(selectedRecord) && isOpen == old(isOpen)
    {
      loading := true;
      sent := Request(Get, "/employees", Authorization());
      if outcome.Success? {
        employees := outcome.payload;
        toasts := [];
      } else {
        toasts := [ErrorToast("Failed to fetch employees.")];
      }
      loading := false;
    }

    /** `fetchAttendanceRecords(employeeId, month)`: a success replaces the
        records, a failure keeps them; the loading flag ends cleared. */
    method FetchAttendanceRecords(employeeId: Option<string>, month: string, outcome: Outcome<seq<AttendanceRecord>>)
      returns (sent: Request, toasts: seq<Toast>)
      modifies this
      ensures sent == Request(Get, RecordsPath(employeeId, month), Authorization())
      ensures attendanceRecords == if outcome.Success? then outcome.payload else old(attendanceRecords)
      ensures toasts == if outcome.Success? then [] else [ErrorToast(RecordsFailed)]
      ensures !loading
      ensures employees == old(employees) && selectedEmployee == old(selectedEmployee)
      ensures selectedMonth == old(selectedMonth) && selectedRecord == old(selectedRecord) && isOpen == old(isOpen)
    {
      loading := true;
      sent := Request(Get, RecordsPath(employeeId, month), Authorization());
      if outcome.Success? {
        attendanceRecords := outcome.payload;
        toasts := [];
      } else {
        toasts := [ErrorToast(RecordsFailed)];
      }
      loading := false;
    }

    /** The employee selector: the choice is remembered and that employee's
        records for the selected month are requested. */
    method SelectEmployee(employeeId: string, outcome: Outcome<seq<AttendanceRecord>>)
      returns (sent: Request, toasts: seq<Toast>)
      modifies this
      ensures selectedEmployee == Some(employeeId)
      ensures sent == Request(Get, RecordsPath(Some(employeeId), old(selectedMonth)), Authorization())
      ensures attendanceRecords == if outcome.Success? then outcome.payload else old(attendanceRecords)
      ensures toasts == if outcome.Success? then [] else [ErrorToast(RecordsFailed)]
      ensures !loading && employees == old(employees) && selectedMonth == old(selectedMonth)
      ensures selectedRecord == old(selectedRecord) && isOpen == old(isOpen)
    {
      selectedEmployee := Some(employeeId);
      sent, toasts := FetchAttendanceRecords(Some(employeeId), selectedMonth, outcome);
    }

    /** The month selector: the month is always remembered; the records are
        requested only when an employee (a non-empty id) is selected. */
    method ChangeMonth(month: string, outcome: Outcome<seq<AttendanceRecord>>)
      returns (sent: seq<Request>, toasts: seq<Toast>)
      modifies this
      ensures selectedMonth == month
      ensures Truthy(old(selectedEmployee)) ==>
        && sent == [Request(Get, RecordsPath(old(selectedEmployee), month), Authorization())]
        && attendanceRecords == (if outcome.Success? then outcome.payload else old(attendanceRecords))
        && toasts == (if outcome.Success? then [] else [ErrorToast(RecordsFailed)])
        && !loading
      ensures !Truthy(old(selectedEmployee)) ==>
        sent == [] && toasts == [] && attendanceRecords == old(attendanceRecords) && loading == old(loading)
      ensures employees == old(employees) && selectedEmployee == old(selectedEmployee)
      ensures selectedRecord == old(selectedRecord) && isOpen == old(isOpen)
    {
      selectedMonth := month;
      if Truthy(selectedEmployee) {
        var request;
        request, toasts := FetchAttendanceRecords(selectedEmployee, month, outcome);
        sent := [request];
      } else {
        sent, toasts := [], [];
      }
    }

    /** The Edit button of a row: that record is selected and the dialog opens. */
    method EditRecord(record: AttendanceRecord)
      modifies this
      ensures selectedRecord == Some(record) && isOpen
      ensures employees == old(employees) && attendanceRecords == old(attendanceRecords) && loading == old(loading)
      ensures selectedEmployee == old(selectedEmployee) && selectedMonth == old(selectedMonth)
    {
      selectedRecord := Some(record);
      isOpen := true;
    }

    /** The dialog's Cancel and close buttons. */
    method CloseDialog()
      modifies this
      ensures !isOpen
      ensures employees == old(employees) && attendanceRecords == old(attendanceRecords) && loading == old(loading)
      ensures selectedEmployee == old(selectedEmployee) && selectedMonth == old(selectedMonth)
      ensures selectedRecord == old(selectedRecord)
    {
      isOpen := false;
    }

    /** `handleSaveChanges`: puts the selected record. On success the dialog
        closes and the selected employee's records for the selected month are
        requested again; on failure the dialog stays open and nothing is
        refetched. With no record selected, reading its id throws and the
        handler's catch shows the failure toast before any request. */
    method SaveChanges(outcome: Outcome<()>, refetch: Outcome<seq<AttendanceRecord>>)
      returns (sent: seq<Request>, toasts: seq<Toast>)
      modifies this
      ensures old(selectedRecord).None? ==>
        && sent == [] && toasts == [ErrorToast(SaveFailed)]
        && isOpen == old(isOpen) && attendanceRecords == old(attendanceRecords) && loading == old(loading)
      ensures old(selectedRecord).Some? && outcome.Success? ==>
        && sent == [Request(Put, "/attendance/" + old(selectedRecord).value.id, Authorization()),
                    Request(Get, RecordsPath(old(selectedEmployee), old(selectedMonth)), Authorization())]
        && !isOpen
        && attendanceRecords == (if refetch.Success? then refetch.payload else old(attendanceRecords))
        && toasts == [SuccessToast("Attendance record updated successfully!")]
                     + (if refetch.Success? then [] else [ErrorToast(RecordsFailed)])
        && !loading
      ensures old(selectedRecord).Some? && outcome.Failure? ==>
        && sent == [Request(Put, "/attendance/" + old(selectedRecord).value.id, Authorization())]
        && isOpen == old(isOpen) && attendanceRecords == old(attendanceRecords) && loading == old(loading)
        && toasts == [ErrorToast(SaveFailed)]
      ensures employees == old(employees) && selectedEmployee == old(selectedEmployee)
      ensures selectedMonth == old(selectedMonth) && selectedRecord == old(selectedRecord)
    {
      match selectedRecord {
        case None =>
          sent, toasts := [], [ErrorToast(SaveFailed)];
        case Some(record) =>
          var put := Request(Put, "/attendance/" + record.id, Authorization());
          if outcome.Success? {
            isOpen := false;
            var get, fetchToasts := FetchAttendanceRecords(selectedEmployee, selectedMonth, refetch);
            sent := [put, get];
            toasts := [SuccessToast("Attendance record updated successfully!")] + fetchToasts;
          } else {
            sent, toasts := [put], [ErrorToast(SaveFailed)];
          }
      }
    }
  }
}
