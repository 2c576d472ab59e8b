/**
 * The student's leave/OD request form (src/Screen/StudentLeaveRequest.js):
 * the Leave/OD toggle, the field inputs, the optional attachment, and the
 * submit that (after its delay) resets the form without sending anything.
 */
module StudentLeaveRequest {
  import opened Common

  datatype LeaveForm = LeaveForm(kind: string, reason: string, rollNo: string, startDate: Date, endDate: Date)

  /** The form as created and as reset, with both dates `now`. */
  function InitialForm(now: Date): (form: LeaveForm)
    ensures form.kind == "Leave" && form.reason == "" && form.rollNo == ""
    ensures form.startDate == now && form.endDate == now
  {
    LeaveForm("Leave", "", "", now, now)
  }

  /** `prev.type === "Leave" ? "OD" : "Leave"` */
  function ToggleKind(kind: string): (next: string)
    ensures next in {"Leave", "OD"}
    ensures kind == "Leave" ==> next == "OD"
    ensures kind != "Leave" ==> next == "Leave"
  {
    if kind == "Leave" then "OD" else "Leave"
  }

  /** On the two values the form can hold, toggling twice gives the type back. */
  lemma ToggleKindTwice(kind: string)
    requires kind in {"Leave", "OD"}
    ensures ToggleKind(ToggleKind(kind)) == kind
  {
    assert "OD"[0] != "Leave"[0];
  }

  /** Submitting is allowed only with a roll number and a reason. */
  predicate CanSubmit(form: LeaveForm): (ok: bool)
    ensures ok <==> "" !in [form.rollNo, form.reason]
  {
    form.rollNo != "" && form.reason != ""
  }

  /** The attachment caption. */
  function FileCaption(file: Option<FileRef>): (caption: string)
    ensures file.None? ==> caption == "Attach Supporting Document"
    ensures file.Some? ==> caption == "Selected: " + file.value.name
  {
    match file
    case None => "Attach Supporting Document"
    case Some(f) => "Selected: " + f.name
  }

  /** The outcome of the document picker. */
  datatype Pick = Picked(file: FileRef) | Cancelled | PickError

  class LeaveRequestScreen {
    var formData: LeaveForm
    var file: Option<FileRef>
    var loading: bool

    /** The type is always one of the two the toggle offers. */
    ghost predicate Valid()
      reads this
    {
      formData.kind in {"Leave", "OD"}
    }

    constructor (now: Date)
      ensures Valid()
      ensures formData == InitialForm(now) && file.None? && !loading
    {
      formData := InitialForm(now);
      file := None;
      loading := false;
    }

    /** The type button. */
    method ToggleType()
      requires Valid()
      modifies this
      ensures Valid()
      ensures formData == old(formData).(kind := ToggleKind(old(formData).kind))
      ensures file == old(file) && loading == old(loading)
    {
      formData := formData.(kind := ToggleKind(formData.kind));
    }

    /** The roll number input. */
    method SetRollNo(text: string)
      requires Valid()
      modifies this
      ensures Valid() && formData == old(formData).(rollNo := text)
      ensures file == old(file) && loading == old(loading)
    {
      formData := formData.(rollNo := text);
    }

    /** The reason input. */
    method SetReason(text: string)
      requires Valid()
      modifies this
      ensures Valid() && formData == old(formData).(reason := text)
      ensures file == old(file) && loading == old(loading)
    {
      formData := formData.(reason := text);
    }

    /** The start-date picker, confirmed. */
    method SetStartDate(date: Date)
      requires Valid()
      modifies this
      ensures Valid() && formData == old(formData).(startDate := date)
      ensures file == old(file) && loading == old(loading)
    {
      formData := formData.(startDate := date);
    }

    /** The earliest date the end-date picker offers: the current start date. */
    function EndDateMinimum(): (minimum: Date)
      reads this
      ensures minimum == formData.startDate
    {
      formData.startDate
    }

    /** The end-date picker, confirmed. */
    method SetEndDate(date: Date)
      requires Valid()
      modifies this
      ensures Valid() && formData == old(formData).(endDate := date)
      ensures file == old(file) && loading == old(loading)
    {
      formData := formData.(endDate := date);
    }

    /**
     * `pickDocument`: a picked file replaces the attachment; a cancelled
     * or failed pick only alerts.
     */
    method PickDocument(pick: Pick) returns (alert: Option<Alert>)
      requires Valid()
      modifies this
      ensures Valid()
      ensures pick.Picked? ==> file == Some(pick.file) && alert.None?
      ensures pick.Cancelled? ==> file == old(file) && alert == Some(Alert("Cancelled", "You did not select any file."))
      ensures pick.PickError? ==>
        file == old(file) && alert == Some(Alert("Error", "Something went wrong while selecting the file."))
      ensures formData == old(formData) && loading == old(loading)
    {
      match pick {
        case Picked(f) =>
          file := Some(f);
          alert := None;
        case Cancelled =>
          alert := Some(Alert("Cancelled", "You did not select any file."));
        case PickError =>
          alert := Some(Alert("Error", "Something went wrong while selecting the file."));
      }
    }

    /**
     * `handleSubmit`, with its two-second delay run to completion: without
     * a roll number or a reason an error alert and no change.  Otherwise
     * the success message, and the form back at its initial values (dates
     * `now`), no file and loading off.  Nothing is sent anywhere.
     */
    method HandleSubmit(now: Date) returns (alert: Alert)
      requires Valid()
      modifies this
      ensures Valid()
      ensures !CanSubmit(old(formData)) ==> alert == Alert("Error", "All fields are required.")
      ensures !CanSubmit(old(formData)) ==> formData == old(formData) && file == old(file) && loading == old(loading)
      ensures CanSubmit(old(formData)) ==> alert == Alert("success", "Leave request submitted!")
      ensures CanSubmit(old(formData)) ==> formData == InitialForm(now) && file.None? && !loading
    {
      if !CanSubmit(formData) {
        return Alert("Error", "All fields are required.");
      }
      loading := true;
      alert := Alert("success", "Leave request submitted!");
      formData := InitialForm(now);
      file := None;
      loading := false;
    }
  }

  /** A submitted form cannot be submitted again without re-entering the roll number and reason. */
  lemma ResetFormCannotSubmit(now: Date)
    ensures !CanSubmit(InitialForm(now))
  {
  }
}
