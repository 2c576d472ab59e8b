/**
 * The exam hall allocation form (src/Screen/ExamHallPost.js): a form of
 * seven keyed fields, the required-field check that lists what is missing,
 * and the post that resets the form on success.
 */
module ExamHallPost {
  import opened Common

  /** A form value: a typed or picked string, or the picked exam date. */
  datatype FieldValue = Text(text: string) | When(date: Date)

  /** JavaScript truthiness of a form value: a `Date` is always truthy. */
  predicate Truthy(v: FieldValue)
  {
    v.When? || v.text != ""
  }

  /** `!formData[field]` (an absent key reads as `undefined`). */
  predicate Missing(form: map<string, FieldValue>, field: string)
  {
    !(field in form && Truthy(form[field]))
  }

  /** The required fields, in the order the message lists them. */
  const RequiredFields: seq<string> := ["rollNo", "classRoom", "examDate", "examHall", "department", "Year", "ExamType"]

  function IsMissingIn(form: map<string, FieldValue>): string -> bool
  {
    (field: string) => Missing(form, field)
  }

  /** `requiredFields.filter(field => !formData[field])` */
  function MissingFields(form: map<string, FieldValue>): (missing: seq<string>)
    ensures forall f :: f in missing <==> f in RequiredFields && Missing(form, f)
    ensures |missing| <= |RequiredFields|
  {
    Filter(RequiredFields, IsMissingIn(form))
  }

  /** The missing fields are listed in the order of the required fields. */
  lemma MissingFieldsInOrder(form: map<string, FieldValue>)
    ensures IsSubsequence(MissingFields(form), RequiredFields)
  {
  }

  /** The toast shown when fields are missing. */
  function MissingMessage(missing: seq<string>): (message: string)
    ensures message == "Missing fields: " + Join(missing, ", ")
    ensures |missing| == 1 ==> message == "Missing fields: " + missing[0]
  {
    "Missing fields: " + Join(missing, ", ")
  }

  /**
   * The form as created, and as reset after a successful post, with the date
   * `now`: the intended form with every text field empty.
   */
  function InitialForm(now: Date): (form: map<string, FieldValue>)
    ensures form == IntendedForm("", "", now, "", "", "", "")
  {
    map["rollNo" := Text(""), "classRoom" := Text(""), "examDate" := When(now), "examHall" := Text(""),
        "department" := Text(""), "Year" := Text(""), "ExamType" := Text("")]
  }

  /** The fresh form holds exactly the required fields, all empty except the date. */
  lemma InitialFormShape(now: Date)
    ensures forall f :: f in InitialForm(now) <==> f in RequiredFields
    ensures InitialForm(now)["examDate"] == When(now)
    ensures forall f :: f in InitialForm(now) && f != "examDate" ==> InitialForm(now)[f] == Text("")
  {
  }

  /**
   * The forms this screen can reach: it has inputs for the roll number,
   * the year, the exam date and the exam type only, so class, hall and
   * department stay empty, and the date is always a `Date`.
   */
  ghost predicate ScreenReachable(form: map<string, FieldValue>)
  {
    && "examDate" in form && form["examDate"].When?
    && "classRoom" in form && form["classRoom"] == Text("")
    && "examHall" in form && form["examHall"] == Text("")
    && "department" in form && form["department"] == Text("")
  }

  /**
   * From this screen the validator always reports class, hall and
   * department missing, and never the date; so no post is ever made.
   */
  lemma ScreenAlwaysMissesThree(form: map<string, FieldValue>)
    requires ScreenReachable(form)
    ensures "classRoom" in MissingFields(form) && "examHall" in MissingFields(form)
    ensures "department" in MissingFields(form)
    ensures "examDate" !in MissingFields(form)
    ensures MissingFields(form) != []
  {
    assert "classRoom" in RequiredFields;
  }

  /** Hence validation fails on every form this screen can reach. */
  lemma ReachableFormIncomplete(form: map<string, FieldValue>)
    requires ScreenReachable(form)
    ensures MissingFields(form) != []
  {
    ScreenAlwaysMissesThree(form);
  }

  /** A form whose seven required fields are all truthy has nothing missing. */
  lemma CompleteFormHasNoMissing(form: map<string, FieldValue>)
    requires forall f :: f in RequiredFields ==> !Missing(form, f)
    ensures MissingFields(form) == []
  {
  }

  /**
   * The form a screen with an input for each of the seven fields would
   * post: every text field as typed, and the picked date.
   */
  function IntendedForm(rollNo: string, classRoom: string, date: Date, examHall: string,
                        department: string, year: string, examType: string): (form: map<string, FieldValue>)
    ensures form.Keys == set f | f in RequiredFields
    ensures form["examDate"] == When(date)
    ensures form["rollNo"] == Text(rollNo) && form["classRoom"] == Text(classRoom) && form["examHall"] == Text(examHall)
    ensures form["department"] == Text(department) && form["Year"] == Text(year) && form["ExamType"] == Text(examType)
  {
    map["rollNo" := Text(rollNo), "classRoom" := Text(classRoom), "examDate" := When(date),
        "examHall" := Text(examHall), "department" := Text(department), "Year" := Text(year),
        "ExamType" := Text(examType)]
  }

  /** With an input for every field (the form as evidently intended), filling each makes the form pass. */
  lemma FilledFormPasses(rollNo: string, classRoom: string, date: Date, examHall: string,
                         department: string, year: string, examType: string)
    requires rollNo != "" && classRoom != "" && examHall != "" && department != "" && year != "" && examType != ""
    ensures MissingFields(IntendedForm(rollNo, classRoom, date, examHall, department, year, examType)) == []
  {
    CompleteFormHasNoMissing(IntendedForm(rollNo, classRoom, date, examHall, department, year, examType));
  }

  lemma InitialFormReachable(now: Date)
    ensures ScreenReachable(InitialForm(now))
  {
  }

  class ExamHallPostScreen {
    var formData: map<string, FieldValue>
    var loading: bool
    /** Every form posted to the allocation endpoint, oldest first. */
    var posted: seq<map<string, FieldValue>>

    constructor (now: Date)
      ensures formData == InitialForm(now) && !loading && posted == []
      ensures ScreenReachable(formData)
    {
      formData := InitialForm(now);
      loading := false;
      posted := [];
    }

    /** `handleChange(key, value)`: only the named key changes. */
    method HandleChange(key: string, value: FieldValue)
      modifies this
      ensures formData == old(formData)[key := value]
      ensures forall k :: k != key ==> (k in formData <==> k in old(formData))
      ensures forall k :: k != key && k in old(formData) ==> formData[k] == old(formData)[k]
      ensures loading == old(loading) && posted == old(posted)
      ensures (old(ScreenReachable(formData)) && key !in {"classRoom", "examHall", "department"} &&
               (key == "examDate" ==> value.When?)) ==> ScreenReachable(formData)
    {
      formData := formData[key := value];
    }

    /** The roll number and academic year inputs and the exam type picker. */
    method EnterText(key: string, text: string)
      requires key in {"rollNo", "Year", "ExamType"}
      modifies this
      ensures formData == old(formData)[key := Text(text)]
      ensures loading == old(loading) && posted == old(posted)
      ensures old(ScreenReachable(formData)) ==> ScreenReachable(formData)
    {
      HandleChange(key, Text(text));
    }

    /** The date picker: a picked date replaces the exam date; a dismissed picker changes nothing. */
    method PickDate(selected: Option<Date>)
      modifies this
      ensures formData == if selected.Some? then old(formData)["examDate" := When(selected.value)] else old(formData)
      ensures loading == old(loading) && posted == old(posted)
      ensures old(ScreenReachable(formData)) ==> ScreenReachable(formData)
    {
      if selected.Some? {
        HandleChange("examDate", When(selected.value));
      }
    }

    /**
     * The request itself, once validation has passed: the form is posted; a
     * success resets it (with the date `now`), a failure toasts the server's
     * message (or a fallback), an exception a fixed error.
     */
    method Submit(res: Outcome<()>, now: Date) returns (toast: string)
      modifies this
      ensures !loading
      ensures posted == old(posted) + [old(formData)]
      ensures res.Success? ==> formData == InitialForm(now) && toast == "Exam Hall Allocated Successfully"
      ensures !res.Success? ==> formData == old(formData)
      ensures res.Failure? ==> toast == if res.message != "" then res.message else "Failed to Allocate Exam Hall"
      ensures res.Threw? ==> toast == "Error Allocating Exam Hall"
    {
      posted := posted + [formData];
      match res {
        case Success(_) =>
          toast := "Exam Hall Allocated Successfully";
          formData := InitialForm(now);
        case Failure(message) =>
          toast := if message != "" then message else "Failed to Allocate Exam Hall";
        case Threw(_) =>
          toast := "Error Allocating Exam Hall";
      }
      loading := false;
    }

    /**
     * `postHalls`: with any required field missing nothing is posted and
     * the toast lists the missing fields; otherwise the form is submitted.
     * Loading is false after every attempt.  From a form this screen can
     * reach, the validation always fails.
     */
    method PostHalls(res: Outcome<()>, now: Date) returns (toast: string, sent: bool)
      modifies this
      ensures !loading
      ensures sent <==> MissingFields(old(formData)) == []
      ensures !sent ==> toast == MissingMessage(MissingFields(old(formData)))
      ensures !sent ==> formData == old(formData) && posted == old(posted)
      ensures sent ==> posted == old(posted) + [old(formData)]
      ensures sent && res.Success? ==> formData == InitialForm(now) && toast == "Exam Hall Allocated Successfully"
      ensures sent && !res.Success? ==> formData == old(formData)
      ensures sent && res.Failure? ==> toast == if res.message != "" then res.message else "Failed to Allocate Exam Hall"
      ensures sent && res.Threw? ==> toast == "Error Allocating Exam Hall"
      ensures old(ScreenReachable(formData)) ==> !sent && ScreenReachable(formData)
    {
      ghost var reachable := ScreenReachable(formData);
      if reachable {
        ReachableFormIncomplete(formData);
      }
      loading := true;
      var missing := MissingFields(formData);
      if |missing| > 0 {
        toast := MissingMessage(missing);
        loading := false;
        sent := false;
        return;
      }
      sent := true;
      toast := Submit(res, now);
    }
  }
}
