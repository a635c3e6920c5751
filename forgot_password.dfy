/** The password-recovery page: request a code, verify it, then set a new
    password. Each sub-form's callback is a method that may only be
    invoked while that sub-form is on screen. */
module ForgotPassword {

  datatype Step = RequestOtp | VerifyOtp | ResetPassword

  /** The one sub-form rendered for a step, with the props it receives. */
  datatype Screen = RequestForm | VerifyForm(email: string) | ResetForm(email: string, otp: string)

  function ScreenFor(step: Step, email: string, otp: string): (r: Screen)
    ensures r.RequestForm? <==> step == RequestOtp
    ensures r.VerifyForm? <==> step == VerifyOtp
    ensures r.ResetForm? <==> step == ResetPassword
    ensures r.VerifyForm? ==> r.email == email
    ensures r.ResetForm? ==> r.email == email && r.otp == otp
  {
    match step
    case RequestOtp => RequestForm
    case VerifyOtp => VerifyForm(email)
    case ResetPassword => ResetForm(email, otp)
  }

  class Recovery {
    var step: Step
    var email: string
    var otp: string

    /** Nothing is remembered on the request step, and no code before the
      reset step. */
    predicate Valid()
      reads this
    {
      (step == RequestOtp ==> email == "" && otp == "") && (step == VerifyOtp ==> otp == "")
    }

    constructor ()
      ensures step == RequestOtp && email == "" && otp == "" && Valid()
    {
      step := RequestOtp;
      email := "";
      otp := "";
    }

    function Current(): Screen
      reads this
    {
      ScreenFor(step, email, otp)
    }

    /** onOTPSent, wired only into the request form. */
    method HandleOtpSent(userEmail: string)
      requires Valid() && Current().RequestForm?
      modifies this
      ensures Valid() && step == VerifyOtp && email == userEmail && otp == ""
      ensures Current() == VerifyForm(userEmail)
    {
      email := userEmail;
      step := VerifyOtp;
    }

    /** onOTPVerified, wired only into the verify form. */
    method HandleOtpVerified(verifiedOtp: string)
      requires Valid() && Current().VerifyForm?
      modifies this
      ensures Valid() && step == ResetPassword && otp == verifiedOtp && email == old(email)
      ensures Current() == ResetForm(old(email), verifiedOtp)
    {
      otp := verifiedOtp;
      step := ResetPassword;
    }

    /** onBack, also wired only into the verify form: start over. */
    method HandleBackToRequest()
      requires Valid() && Current().VerifyForm?
      modifies this
      ensures Valid() && step == RequestOtp && email == "" && otp == ""
    {
      step := RequestOtp;
      email := "";
      otp := "";
    }
  }

  /** The reset form always receives the email that was sent the code and
      the code that was verified, whatever detours came first. */
  method RecoverInOrder(firstEmail: string, email: string, code: string) returns (shown: Screen)
    ensures shown == ResetForm(email, code)
  {
    var page := new Recovery();
    page.HandleOtpSent(firstEmail);
    page.HandleBackToRequest();
    page.HandleOtpSent(email);
    page.HandleOtpVerified(code);
    shown := page.Current();
  }
}
