/**
 * The registration screen (src/Screen/SignupPage.js): four text fields with
 * "student" as the default role, the messages cleared on every submit, the
 * four-field guard, and the reset and navigation after a success.
 */
module SignupPage {
  import opened Common

  datatype SignupForm = SignupForm(email: string, password: string, rollNo: string, roles: string)

  /** The form as created and as reset after a success. */
  const DefaultForm := SignupForm("", "", "", "student")

  /** A registration is sent only with all four fields filled in. */
  predicate CanRegister(form: SignupForm): (ok: bool)
    ensures ok <==> "" !in [form.email, form.password, form.rollNo, form.roles]
  {
    form.email != "" && form.password != "" && form.rollNo != "" && form.roles != ""
  }

  /** The default form is not ready to send: only its role is filled in. */
  lemma DefaultFormIncomplete()
    ensures !CanRegister(DefaultForm) && DefaultForm.roles != ""
  {
  }

  datatype SignupField = Email | Password | RollNo | Roles

  /** `{ ...formData, <field>: text }` */
  function SetField(form: SignupForm, field: SignupField, text: string): (next: SignupForm)
    ensures field == Email ==> next == form.(email := text)
    ensures field == Password ==> next == form.(password := text)
    ensures field == RollNo ==> next == form.(rollNo := text)
    ensures field == Roles ==> next == form.(roles := text)
  {
    match field
    case Email => form.(email := text)
    case Password => form.(password := text)
    case RollNo => form.(rollNo := text)
    case Roles => form.(roles := text)
  }

  /** Filling the four fields with non-empty text, in any order, makes the form ready to send. */
  lemma FilledFormCanRegister(form: SignupForm, e: string, p: string, r: string, role: string)
    requires e != "" && p != "" && r != "" && role != ""
    ensures CanRegister(SetField(SetField(SetField(SetField(form, Email, e), Password, p), RollNo, r), Roles, role))
  {
  }

  class SignupScreen {
    var formData: SignupForm
    var error: string
    var success: string

    constructor ()
      ensures formData == DefaultForm && error == "" && success == ""
    {
      formData := DefaultForm;
      error := "";
      success := "";
    }

    /** One of the four inputs. */
    method HandleInput(field: SignupField, text: string)
      modifies this
      ensures formData == SetField(old(formData), field, text)
      ensures error == old(error) && success == old(success)
    {
      formData := SetField(formData, field, text);
    }

    /**
     * `handleSubmit`: the two messages are cleared first.  With a field
     * empty an error alert and no request (`sent` is false).  Otherwise
     * the form is posted: a success alerts, resets the form and navigates
     * to the route spelled "Dashbord"; a response that is not a success
     * changes nothing more; an exception alerts the server's message (or
     * a fallback).
     */
    method HandleSubmit(res: Outcome<()>) returns (sent: bool, alert: Option<Alert>, navigateTo: Option<string>)
      modifies this
      ensures error == "" && success == ""
      ensures sent <==> CanRegister(old(formData))
      ensures !sent ==> alert == Some(Alert("Error", "Please fill all the fields")) && navigateTo.None?
      ensures sent && res.Success? ==> formData == DefaultForm && navigateTo == Some("Dashbord")
      ensures sent && res.Success? ==> alert == Some(Alert("Success", "User created successfully"))
      ensures !(sent && res.Success?) ==> formData == old(formData) && navigateTo.None?
      ensures sent && res.Failure? ==> alert.None?
      ensures sent && res.Threw? ==> alert == Some(Alert("Error", OrElse(res.message, "Something went wrong")))
    {
      error := "";
      success := "";
      if !CanRegister(formData) {
        return false, Some(Alert("Error", "Please fill all the fields")), None;
      }
      sent := true;
      match res {
        case Success(_) =>
          alert := Some(Alert("Success", "User created successfully"));
          formData := DefaultForm;
          navigateTo := Some("Dashbord");
        case Failure(_) =>
          alert := None;
          navigateTo := None;
        case Threw(message) =>
          alert := Some(Alert("Error", OrElse(message, "Something went wrong")));
          navigateTo := None;
      }
    }

    /** The "Already have an account? Login" link. */
    method PressLoginLink() returns (navigateTo: string)
      ensures navigateTo == "Login"
    {
      navigateTo := "Login";
    }
  }
}
