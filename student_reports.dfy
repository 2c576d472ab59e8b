/**
 * The attendance report screen (src/Screen/StudentReports.js): the request
 * URL chosen by the viewer's role, the week/month filter, how a response
 * fills or clears the two lists, and which list is shown.
 */
module StudentReports {
  import opened Common

  /** The server the screen talks to (written into the screen itself). */
  const Host: string := "http://localhost:5000"

  /** One report row; the fields are only displayed. */
  datatype ReportRow = ReportRow(rollNo: string, total: string, percentCount: string, percentage: string)

  /**
   * The body of a successful response: `data` (every row) and `data2` (the
   * rows for the chosen week or month; empty when the server leaves it out).
   */
  datatype Report = Report(data: seq<ReportRow>, data2: seq<ReportRow>)

  /** Roles that see the class-wide report. */
  predicate IsStaffOrHod(roles: string)
  {
    roles == "staff" || roles == "hod"
  }

  /**
   * The URL `fetchReports` requests: a student's own reports, a class's
   * reports for staff and hod, and the empty string for anyone else.
   */
  function ReportUrl(roles: string, rollNo: string, classRoom: string, department: string,
                     filterType: string, value: string): (url: string)
    ensures roles == "student" ==>
      url == Host + "/api/myReports?rollNo=" + rollNo + "&" + filterType + "=" + value
    ensures IsStaffOrHod(roles) ==>
      url == Host + "/api/getBulkAttendance?classRoom=" + classRoom + "&department=" + department + "&" + filterType + "=" + value
    ensures roles != "student" && !IsStaffOrHod(roles) ==> url == ""
  {
    if roles == "student" then
      Host + "/api/myReports?rollNo=" + rollNo + "&" + filterType + "=" + value
    else if IsStaffOrHod(roles) then
      Host + "/api/getBulkAttendance?classRoom=" + classRoom + "&department=" + department + "&" + filterType + "=" + value
    else ""
  }

  /** A URL is built exactly for the three known roles, and it always names the server. */
  lemma ReportUrlOnlyForKnownRoles(roles: string, rollNo: string, classRoom: string, department: string,
                                   filterType: string, value: string)
    ensures var url := ReportUrl(roles, rollNo, classRoom, department, filterType, value);
      (url != "" <==> roles == "student" || IsStaffOrHod(roles)) && (url != "" ==> Host <= url)
  {
    var url := ReportUrl(roles, rollNo, classRoom, department, filterType, value);
    if url != "" {
      assert url[..|Host|] == Host;
    }
  }

  /**
   * A student's URL ignores the class and department inputs, and a staff
   * or hod URL ignores the roll number.
   */
  lemma ReportUrlIgnoresOtherInputs(roles: string, rollNo: string, rollNo': string,
                                    classRoom: string, classRoom': string,
                                    department: string, department': string,
                                    filterType: string, value: string)
    ensures roles == "student" ==>
      ReportUrl(roles, rollNo, classRoom, department, filterType, value) ==
      ReportUrl(roles, rollNo, classRoom', department', filterType, value)
    ensures IsStaffOrHod(roles) ==>
      ReportUrl(roles, rollNo, classRoom, department, filterType, value) ==
      ReportUrl(roles, rollNo', classRoom, department, filterType, value)
  {
  }

  /** The two choices of the filter picker. */
  datatype FilterChoice = Month | Week

  function FilterValue(choice: FilterChoice): (filterType: string)
    ensures filterType in {"month", "week"}
    ensures (filterType == "month") <==> choice == Month
  {
    match choice
    case Month => "month"
    case Week => "week"
  }

  class StudentReportsScreen {
    var attendanceData: seq<ReportRow>
    var roles: string
    var classRoom: string
    var filterData: seq<ReportRow>
    var department: string
    var filterType: string
    var value: string
    /** The roll number as it is written into the URL; it starts as the number 0. */
    var rollNo: string

    /**
     * The filter is one the picker offers.  (`value` keeps its initial
     * empty string: no method here changes it, as the screen has no
     * control that sets it.)
     */
    ghost predicate Valid()
      reads this
    {
      filterType in {"month", "week"}
    }

    constructor ()
      ensures Valid()
      ensures attendanceData == [] && filterData == [] && roles == "" && classRoom == "" && department == ""
      ensures filterType == "week" && value == "" && rollNo == "0"
    {
      attendanceData, filterData := [], [];
      roles, classRoom, department := "", "", "";
      filterType := "week";
      value := "";
      rollNo := "0";
    }

    /** Reading the token: a decoded token sets the role and roll number; otherwise nothing changes. */
    method LoadToken(token: TokenRead)
      requires Valid()
      modifies this
      ensures Valid()
      ensures token.Decoded? ==> roles == token.claims.roles && rollNo == token.claims.rollNo
      ensures !token.Decoded? ==> roles == old(roles) && rollNo == old(rollNo)
      ensures attendanceData == old(attendanceData) && filterData == old(filterData)
      ensures classRoom == old(classRoom) && department == old(department) && filterType == old(filterType)
      ensures value == old(value)
    {
      if token.Decoded? {
        roles := token.claims.roles;
        rollNo := token.claims.rollNo;
      }
    }

    /** The class and department inputs (shown to staff and hod). */
    method EnterClass(newClassRoom: string, newDepartment: string)
      requires Valid()
      modifies this
      ensures Valid()
      ensures classRoom == newClassRoom && department == newDepartment
      ensures attendanceData == old(attendanceData) && filterData == old(filterData)
      ensures roles == old(roles) && rollNo == old(rollNo) && filterType == old(filterType)
      ensures value == old(value)
    {
      classRoom, department := newClassRoom, newDepartment;
    }

    method SelectFilter(choice: FilterChoice)
      requires Valid()
      modifies this
      ensures Valid() && filterType == FilterValue(choice)
      ensures attendanceData == old(attendanceData) && filterData == old(filterData)
      ensures roles == old(roles) && rollNo == old(rollNo)
      ensures classRoom == old(classRoom) && department == old(department)
      ensures value == old(value)
    {
      filterType := FilterValue(choice);
    }

    /**
     * `fetchReports`: requests the role's URL.  A success stores `data`,
     * and `data2` as well for a student; a refusal clears both lists; an
     * exception leaves both as they were.
     */
    method FetchReports(res: Outcome<Report>) returns (url: string)
      requires Valid()
      modifies this
      ensures Valid()
      ensures url == ReportUrl(roles, rollNo, classRoom, department, filterType, value)
      ensures res.Success? ==> attendanceData == res.data.data
      ensures res.Success? && roles == "student" ==> filterData == res.data.data2
      ensures res.Success? && roles != "student" ==> filterData == old(filterData)
      ensures res.Failure? ==> attendanceData == [] && filterData == []
      ensures res.Threw? ==> attendanceData == old(attendanceData) && filterData == old(filterData)
      ensures roles == old(roles) && rollNo == old(rollNo) && filterType == old(filterType)
      ensures classRoom == old(classRoom) && department == old(department)
      ensures value == old(value)
    {
      url := ReportUrl(roles, rollNo, classRoom, department, filterType, value);
      match res {
        case Success(report) =>
          attendanceData := report.data;
          if roles == "student" {
            filterData := report.data2;
          }
        case Failure(_) =>
          attendanceData := [];
          filterData := [];
        case Threw(_) =>
      }
    }

    /**
     * The effect that runs when `value` changes: it fetches (the URL is
     * returned) only for a non-empty `value`.  As every method keeps the
     * initial empty `value`, on this screen it never fetches.
     */
    method ValueChanged(res: Outcome<Report>) returns (fetched: Option<string>)
      requires Valid()
      modifies this
      ensures Valid() && value == old(value)
      ensures fetched.Some? <==> value != ""
      ensures fetched.Some? ==> fetched.value == ReportUrl(roles, rollNo, classRoom, department, filterType, value)
      ensures fetched.None? ==> attendanceData == old(attendanceData) && filterData == old(filterData)
    {
      if value != "" {
        var url := FetchReports(res);
        fetched := Some(url);
      } else {
        fetched := None;
      }
    }

    /** The list on screen: the filtered rows for a student, every row otherwise. */
    function Shown(): (rows: seq<ReportRow>)
      reads this
      ensures roles == "student" ==> rows == filterData
      ensures roles != "student" ==> rows == attendanceData
    {
      if roles == "student" then filterData else attendanceData
    }

    /** The columns of a row: the roll number for everyone but students, then the three figures. */
    function Columns(): (columns: seq<string>)
      reads this
      ensures ("rollNo" in columns) <==> roles != "student"
      ensures |columns| >= 3 && columns[|columns| - 3..] == ["total", "percentCount", "percentage"]
    {
      (if roles != "student" then ["rollNo"] else []) + ["total", "percentCount", "percentage"]
    }
  }
}
