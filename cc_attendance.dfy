/**
 * The class coordinator's attendance lookup (src/Screen/CCAttendance.js):
 * the three-field guard before the request, the wholesale replacement of
 * the per-period records, and how each period is shown.
 */
module CCAttendance {
  import opened Common

  /**
   * One period's record as the server sends it: the `length` field (absent
   * when the server leaves it out), the `Present` roll numbers and the
   * lower-case-keyed `absent` ones.
   */
  datatype PeriodRecord = PeriodRecord(length: Option<int>, present: seq<string>, absent: seq<string>)

  /** `attendanceByPeriod`, as its entries in key order. */
  type ByPeriod = seq<(string, PeriodRecord)>

  /** The body of a successful response: the records and the server's message. */
  datatype Response = Response(data: ByPeriod, message: string)

  /** The request is made only when department, class and date are all filled in. */
  predicate CanFetch(department: string, classRoom: string, attendanceDate: string): (ok: bool)
    ensures ok <==> "" !in [department, classRoom, attendanceDate]
  {
    department != "" && classRoom != "" && attendanceDate != ""
  }

  /** `names.join(", ") || "None"` */
  function NamesLine(names: seq<string>): (line: string)
    ensures line != ""
    ensures names == [] ==> line == "None"
    ensures Join(names, ", ") != "" ==> line == Join(names, ", ")
  {
    var joined := Join(names, ", ");
    if joined != "" then joined else "None"
  }

  /**
   * The line reads "None" exactly when there is nobody to list, when the
   * one name is empty, or when the one name is itself "None": a join of two
   * or more names always contains the separator.
   */
  lemma NamesLineNone(names: seq<string>)
    ensures NamesLine(names) == "None" <==> |names| == 0 || (|names| == 1 && names[0] in {"", "None"})
  {
    JoinEmptyIff(names, ", ");
    if |names| > 1 {
      var r := Join(names, ", ");
      assert r[|names[0]|] == ',';
      assert r != "None";
    }
  }

  /** What one period card shows. */
  datatype PeriodCard = PeriodCard(period: string, total: Option<int>, present: string, absent: string)

  function RenderPeriod(period: string, records: PeriodRecord): (card: PeriodCard)
    ensures card.period == period
    ensures card.total == records.length
    ensures card.present == NamesLine(records.present) && card.absent == NamesLine(records.absent)
  {
    PeriodCard(period, records.length, NamesLine(records.present), NamesLine(records.absent))
  }

  /**
   * The results section: absent without any period, otherwise one card per
   * period in key order.  The total is the record's own `length` field,
   * whatever the two lists hold.
   */
  function RenderResults(byPeriod: ByPeriod): (results: Option<seq<PeriodCard>>)
    ensures results.Some? <==> |byPeriod| > 0
    ensures results.Some? ==> |results.value| == |byPeriod|
    ensures results.Some? ==>
      forall i :: 0 <= i < |byPeriod| ==> results.value[i] == RenderPeriod(byPeriod[i].0, byPeriod[i].1)
  {
    if |byPeriod| == 0 then None
    else Some(seq(|byPeriod|, i requires 0 <= i < |byPeriod| => RenderPeriod(byPeriod[i].0, byPeriod[i].1)))
  }

  /** The total shown does not depend on the lists: two records with the same `length` show the same total. */
  lemma TotalIgnoresLists(period: string, a: PeriodRecord, b: PeriodRecord)
    requires a.length == b.length
    ensures RenderPeriod(period, a).total == RenderPeriod(period, b).total
  {
  }

  datatype Field = Department | ClassRoom | AttendanceDate

  class CCAttendanceScreen {
    var attendanceDate: string
    var classRoom: string
    var department: string
    var attendanceByPeriod: ByPeriod
    var loading: bool

    constructor ()
      ensures attendanceDate == "" && classRoom == "" && department == ""
      ensures attendanceByPeriod == [] && !loading
    {
      attendanceDate, classRoom, department := "", "", "";
      attendanceByPeriod := [];
      loading := false;
    }

    /** Typing in one of the three inputs replaces that field only. */
    method HandleInput(field: Field, text: string)
      modifies this
      ensures department == if field == Department then text else old(department)
      ensures classRoom == if field == ClassRoom then text else old(classRoom)
      ensures attendanceDate == if field == AttendanceDate then text else old(attendanceDate)
      ensures attendanceByPeriod == old(attendanceByPeriod) && loading == old(loading)
    {
      match field {
        case Department => department := text;
        case ClassRoom => classRoom := text;
        case AttendanceDate => attendanceDate := text;
      }
    }

    /**
     * `fetchAttendanceForCC`: with a field empty, an error alert and no
     * request.  Otherwise a success replaces the records wholesale and
     * alerts the server's message; a refusal or an exception alerts an
     * error and keeps the records.  Loading is false after every request.
     */
    method FetchAttendance(res: Outcome<Response>) returns (requested: bool, alert: Alert)
      modifies this
      ensures requested <==> CanFetch(department, classRoom, attendanceDate)
      ensures !requested ==> alert == Alert("Error", "Please fill in all fields")
      ensures !requested ==> attendanceByPeriod == old(attendanceByPeriod) && loading == old(loading)
      ensures requested ==> !loading
      ensures requested && res.Success? ==>
        attendanceByPeriod == res.data.data && alert == Alert("Success", res.data.message)
      ensures requested && !res.Success? ==> attendanceByPeriod == old(attendanceByPeriod)
      ensures requested && res.Failure? ==> alert == Alert("Error", res.message)
      ensures requested && res.Threw? ==> alert == Alert("Error", "An error occurred while fetching attendance")
      ensures department == old(department) && classRoom == old(classRoom)
      ensures attendanceDate == old(attendanceDate)
    {
      if !CanFetch(department, classRoom, attendanceDate) {
        return false, Alert("Error", "Please fill in all fields");
      }
      requested := true;
      loading := true;
      match res {
        case Success(body) =>
          attendanceByPeriod := body.data;
          alert := Alert("Success", body.message);
        case Failure(message) =>
          alert := Alert("Error", message);
        case Threw(_) =>
          alert := Alert("Error", "An error occurred while fetching attendance");
      }
      loading := false;
    }

    function Results(): (results: Option<seq<PeriodCard>>)
      reads this
      ensures results.Some? <==> |attendanceByPeriod| > 0
    {
      RenderResults(attendanceByPeriod)
    }
  }
}
