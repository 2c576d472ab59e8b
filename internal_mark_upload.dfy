/**
 * The internal-marks upload screen (src/Screen/InternalMarkUpload.js): the
 * class roster is fetched for a (department, class, year) selection, marks
 * are typed per roll number, and the upload payload carries one entry per
 * student.
 */
module InternalMarkUpload {
  import opened Common

  datatype Student = Student(rollNo: string)

  /**
   * The `marks` field of one payload entry: `marks[rollNo] || 0` is the
   * typed text when it is non-empty and the number 0 otherwise.
   */
  datatype MarkValue = Typed(text: string) | Zero

  datatype MarkEntry = MarkEntry(rollNo: string, examType: string, marks: MarkValue, subject: string)

  /** `marks[rollNo] || 0` */
  function MarkFor(marks: map<string, string>, rollNo: string): (v: MarkValue)
    ensures v.Typed? <==> rollNo in marks && marks[rollNo] != ""
    ensures v.Typed? ==> v.text == marks[rollNo]
  {
    if rollNo in marks && marks[rollNo] != "" then Typed(marks[rollNo]) else Zero
  }

  /**
   * The upload payload (`students.map(...)`): one entry per student, in
   * roster order, each with that student's roll number and typed mark (or
   * 0), and all with the same exam type and subject.
   */
  function Payload(students: seq<Student>, marks: map<string, string>,
                   examType: string, subject: string): (p: seq<MarkEntry>)
    ensures |p| == |students|
    ensures forall i :: 0 <= i < |p| ==> p[i].rollNo == students[i].rollNo
    ensures forall i :: 0 <= i < |p| ==> p[i].marks == MarkFor(marks, students[i].rollNo)
    ensures forall i :: 0 <= i < |p| ==> p[i].examType == examType && p[i].subject == subject
  {
    if students == [] then []
    else
      [MarkEntry(students[0].rollNo, examType, MarkFor(marks, students[0].rollNo), subject)]
        + Payload(students[1..], marks, examType, subject)
  }

  /** Entering a mark for one roll number changes only that roll number's payload entries. */
  lemma {:induction false} PayloadAfterMarkChange(students: seq<Student>, marks: map<string, string>,
                                                  rollNo: string, value: string,
                                                  examType: string, subject: string, i: nat)
    requires i < |students|
    ensures Payload(students, marks[rollNo := value], examType, subject)[i].marks ==
              if students[i].rollNo == rollNo then (if value != "" then Typed(value) else Zero)
              else Payload(students, marks, examType, subject)[i].marks
  {
  }

  /** The fetch is attempted only when department, class and year are all chosen. */
  predicate CanFetch(department: string, classRoom: string, year: string): (ok: bool)
    ensures ok <==> "" !in [department, classRoom, year]
  {
    department != "" && classRoom != "" && year != ""
  }

  class MarkUploadScreen {
    var department: string
    var classRoom: string
    var year: string
    var examType: string
    var subject: string
    var students: seq<Student>
    var marks: map<string, string>
    var loading: bool
    /** Every payload uploaded, oldest first. */
    var uploads: seq<seq<MarkEntry>>

    constructor ()
      ensures department == "" && classRoom == "" && year == "" && examType == "" && subject == ""
      ensures students == [] && marks == map[] && !loading && uploads == []
    {
      department, classRoom, year, examType, subject := "", "", "", "", "";
      students := [];
      marks := map[];
      loading := false;
      uploads := [];
    }

    /** The five pickers; each sets its own selection and nothing else. */
    method Select(newDepartment: string, newClassRoom: string, newYear: string, newExamType: string, newSubject: string)
      modifies this
      ensures department == newDepartment && classRoom == newClassRoom && year == newYear
      ensures examType == newExamType && subject == newSubject
      ensures students == old(students) && marks == old(marks) && loading == old(loading) && uploads == old(uploads)
    {
      department, classRoom, year, examType, subject := newDepartment, newClassRoom, newYear, newExamType, newSubject;
    }

    /**
     * `fetchStudents`: without a complete selection nothing is requested and
     * nothing changes; otherwise a success replaces the roster and any other
     * outcome keeps it.  Loading is over afterwards.
     */
    method FetchStudents(res: Outcome<seq<Student>>) returns (requested: bool, toast: Alert)
      modifies this
      ensures requested <==> CanFetch(department, classRoom, year)
      ensures !requested ==> toast == Alert("error", "Please select all fields")
      ensures requested ==> toast == match res
        case Success(_) => Alert("success", "Students fetched successfully")
        case Failure(_) => Alert("error", "Failed to fetch students")
        case Threw(_) => Alert("error", "Error fetching students")
      ensures !requested ==> students == old(students) && loading == old(loading)
      ensures requested ==> !loading && students == if res.Success? then res.data else old(students)
      ensures marks == old(marks) && uploads == old(uploads)
      ensures department == old(department) && classRoom == old(classRoom) && year == old(year)
      ensures examType == old(examType) && subject == old(subject)
    {
      if !CanFetch(department, classRoom, year) {
        return false, Alert("error", "Please select all fields");
      }
      requested := true;
      loading := true;
      match res {
        case Success(data) =>
          students := data;
          toast := Alert("success", "Students fetched successfully");
        case Failure(_) =>
          toast := Alert("error", "Failed to fetch students");
        case Threw(_) =>
          toast := Alert("error", "Error fetching students");
      }
      loading := false;
    }

    /** `handleMarksChange(rollNo, value)`: only that roll number's mark changes. */
    method HandleMarksChange(rollNo: string, value: string)
      modifies this
      ensures marks == old(marks)[rollNo := value]
      ensures forall r :: r != rollNo ==> (r in marks <==> r in old(marks))
      ensures forall r :: r != rollNo && r in old(marks) ==> marks[r] == old(marks)[r]
      ensures students == old(students) && loading == old(loading) && uploads == old(uploads)
      ensures examType == old(examType) && subject == old(subject)
    {
      marks := marks[rollNo := value];
    }

    /**
     * `handleSubmit`: nothing is uploaded without an exam type or without
     * students (the subject is not checked).  Otherwise the payload is
     * uploaded; a success clears the marks and the roster, any other outcome
     * keeps them.  Loading is over afterwards.
     */
    method HandleSubmit(res: Outcome<()>) returns (sent: Option<seq<MarkEntry>>, toast: Alert)
      modifies this
      ensures sent.Some? <==> examType != "" && |old(students)| > 0
      ensures sent.None? ==> toast == Alert("error", "Please complete all selections")
      ensures sent.Some? ==> toast == match res
        case Success(_) => Alert("success", "Marks uploaded successfully")
        case Failure(_) => Alert("error", "Failed to upload marks")
        case Threw(_) => Alert("error", "Error uploading marks")
      ensures sent.Some? ==> sent.value == Payload(old(students), old(marks), examType, subject)
      ensures sent.Some? ==> uploads == old(uploads) + [sent.value] && !loading
      ensures sent.None? ==> uploads == old(uploads) && loading == old(loading)
      ensures sent.Some? && res.Success? ==> students == [] && marks == map[]
      ensures sent.None? || !res.Success? ==> students == old(students) && marks == old(marks)
      ensures examType == old(examType) && subject == old(subject)
    {
      if examType == "" || |students| == 0 {
        return None, Alert("error", "Please complete all selections");
      }
      var payload := Payload(students, marks, examType, subject);
      loading := true;
      uploads := uploads + [payload];
      match res {
        case Success(_) =>
          toast := Alert("success", "Marks uploaded successfully");
          marks := map[];
          students := [];
        case Failure(_) =>
          toast := Alert("error", "Failed to upload marks");
        case Threw(_) =>
          toast := Alert("error", "Error uploading marks");
      }
      loading := false;
      sent := Some(payload);
    }
  }

  /**
   * As written: `AsyncStorage` is not imported, so reading the token throws
   * inside both `try` blocks and every fetch ends in the exception branch.
   * The roster then never fills, and pressing Upload stops at the guard.
   */
  method UploadAfterThrownFetch(screen: MarkUploadScreen, reason: string, res: Outcome<()>)
    returns (sent: Option<seq<MarkEntry>>, toast: Alert)
    requires screen.students == []
    modifies screen
    ensures sent.None? && toast == Alert("error", "Please complete all selections")
    ensures screen.students == [] && screen.uploads == old(screen.uploads)
  {
    var _, _ := screen.FetchStudents(Threw(reason));
    sent, toast := screen.HandleSubmit(res);
  }

  /**
   * With the token read working (the evidently intended behaviour): a
   * successful fetch of a non-empty roster, then Upload with an exam type
   * chosen, sends one entry per fetched student.
   */
  method UploadAfterFetch(screen: MarkUploadScreen, roster: seq<Student>, res: Outcome<()>)
    returns (sent: Option<seq<MarkEntry>>, toast: Alert)
    requires roster != [] && screen.examType != ""
    requires CanFetch(screen.department, screen.classRoom, screen.year)
    modifies screen
    ensures sent == Some(Payload(roster, old(screen.marks), old(screen.examType), old(screen.subject)))
    ensures screen.uploads == old(screen.uploads) + [sent.value]
  {
    var _, _ := screen.FetchStudents(Success(roster));
    sent, toast := screen.HandleSubmit(res);
  }
}
