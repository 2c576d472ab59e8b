/**
 * The forgot-password flow (src/Screen/ForgotPassword.js): a two-step
 * state machine, "send" (ask for a code by email) then "verify" (enter the
 * code and a new password), each guarded by its required fields.
 */
module ForgotPassword {
  import opened Common

  datatype Step = Send | Verify

  /** The value of the `step` state. */
  function StepName(step: Step): (name: string)
    ensures name in {"send", "verify"}
    ensures (name == "send") <==> step.Send?
  {
    match step
    case Send => "send"
    case Verify => "verify"
  }

  /** The card's title. */
  function Title(step: Step): (title: string)
    ensures (title == "Forgot Password") <==> step.Send?
    ensures (title == "Verify Code") <==> step.Verify?
  {
    if step == Send then "Forgot Password" else "Verify Code"
  }

  datatype Input = EmailInput | CodeInput | PasswordInput

  /** The inputs on the card: the email while sending, the code and new password while verifying. */
  function ShownInputs(step: Step): (inputs: seq<Input>)
    ensures EmailInput in inputs <==> step.Send?
    ensures CodeInput in inputs <==> step.Verify?
    ensures PasswordInput in inputs <==> step.Verify?
  {
    if step == Send then [EmailInput] else [CodeInput, PasswordInput]
  }

  /** What the screen shows is decided by the step alone, and differs between the two steps. */
  lemma ScreenDependsOnlyOnStep(a: Step, b: Step)
    ensures (Title(a) == Title(b) && ShownInputs(a) == ShownInputs(b)) <==> a == b
  {
  }

  /** The body of the verification request. */
  datatype VerifyRequest = VerifyRequest(email: string, providedCode: string, newPassword: string)

  /** Verification is requested only with email, code and new password all filled in. */
  predicate CanVerify(email: string, code: string, newPassword: string): (ok: bool)
    ensures ok <==> "" !in [email, code, newPassword]
  {
    email != "" && code != "" && newPassword != ""
  }

  class ForgotPasswordScreen {
    var email: string
    var fPCode: string
    var newPassword: string
    var step: Step
    var showPassword: bool

    constructor ()
      ensures email == "" && fPCode == "" && newPassword == "" && step == Send && !showPassword
    {
      email, fPCode, newPassword := "", "", "";
      step := Send;
      showPassword := false;
    }

    /** The three text inputs, each setting its own field. */
    method SetEmail(text: string)
      modifies this
      ensures email == text && fPCode == old(fPCode) && newPassword == old(newPassword)
      ensures step == old(step) && showPassword == old(showPassword)
    {
      email := text;
    }

    method SetCode(text: string)
      modifies this
      ensures fPCode == text && email == old(email) && newPassword == old(newPassword)
      ensures step == old(step) && showPassword == old(showPassword)
    {
      fPCode := text;
    }

    method SetNewPassword(text: string)
      modifies this
      ensures newPassword == text && email == old(email) && fPCode == old(fPCode)
      ensures step == old(step) && showPassword == old(showPassword)
    {
      newPassword := text;
    }

    /** The eye icon: shows or hides the new password. */
    method TogglePasswordVisibility()
      modifies this
      ensures showPassword == !old(showPassword)
      ensures email == old(email) && fPCode == old(fPCode) && newPassword == old(newPassword)
      ensures step == old(step)
    {
      showPassword := !showPassword;
    }

    /**
     * `sendForgotPasswordCode`: with no email an error and no request (the
     * email is returned when a request is made).  A success moves to
     * "verify"; a refusal or an exception stays.  The step never moves back.
     */
    method SendCode(res: Outcome<string>) returns (requested: Option<string>, toast: Alert)
      modifies this
      ensures requested.Some? <==> email != ""
      ensures requested.Some? ==> requested.value == email
      ensures email == "" ==> toast == Alert("Error", "Please enter your email")
      ensures step == if email != "" && res.Success? then Verify else old(step)
      ensures email != "" && res.Success? ==> toast == Alert("Success", res.data)
      ensures email != "" && res.Failure? ==> toast == Alert("Error", res.message)
      ensures email != "" && res.Threw? ==> toast == Alert("Error", OrElse(res.message, "An error occurred"))
      ensures old(step) == Verify ==> step == Verify
      ensures email == old(email) && fPCode == old(fPCode) && newPassword == old(newPassword)
      ensures showPassword == old(showPassword)
    {
      if email == "" {
        return None, Alert("Error", "Please enter your email");
      }
      requested := Some(email);
      match res {
        case Success(message) =>
          toast := Alert("Success", message);
          step := Verify;
        case Failure(message) =>
          toast := Alert("Error", message);
        case Threw(message) =>
          toast := Alert("Error", OrElse(message, "An error occurred"));
      }
    }

    /**
     * `verifyForgotPasswordCode`: with a field empty an error and no
     * request.  Otherwise the request carries the email, the entered code
     * as `providedCode` and the new password; only a success navigates to
     * the login screen.  The step is left as it is.
     */
    method VerifyCode(res: Outcome<string>) returns (request: Option<VerifyRequest>, toast: Alert, navigateTo: Option<string>)
      ensures request.Some? <==> CanVerify(email, fPCode, newPassword)
      ensures request.Some? ==> request.value == VerifyRequest(email, fPCode, newPassword)
      ensures request.None? ==> toast == Alert("Error", "Please fill all the fields")
      ensures navigateTo.Some? <==> request.Some? && res.Success?
      ensures navigateTo.Some? ==> navigateTo.value == "Login" && toast == Alert("Success", res.data)
      ensures request.Some? && res.Failure? ==> toast == Alert("Error", res.message)
      ensures request.Some? && res.Threw? ==> toast == Alert("Error", OrElse(res.message, "An error occurred"))
    {
      if !CanVerify(email, fPCode, newPassword) {
        return None, Alert("Error", "Please fill all the fields"), None;
      }
      request := Some(VerifyRequest(email, fPCode, newPassword));
      match res {
        case Success(message) =>
          toast := Alert("Success", message);
          navigateTo := Some("Login");
        case Failure(message) =>
          toast := Alert("Error", message);
          navigateTo := None;
        case Threw(message) =>
          toast := Alert("Error", OrElse(message, "An error occurred"));
          navigateTo := None;
      }
    }

    /** The "Remember your password? Login" link. */
    method PressLoginLink() returns (navigateTo: string)
      ensures navigateTo == "Login"
    {
      navigateTo := "Login";
    }
  }
}
