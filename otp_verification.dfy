/** The older one-time-code login screen: the same six digit slots as the
    reset screen, but paste never submits, the error survives typing, and
    the resend countdown is 60 s. No page imports it. The login and resend
    calls are replaced by outcomes. */
module OtpVerification {
  import opened Common
  import VerifyOtpForm

  const Slots := 6
  const ResendSeconds := 60
  const IncompleteMessage := "Please enter all 6 digits"
  const DashboardRoute := "/dashboard"

  /** A call either resolves or rejects with an error whose `message` is
      shown. */
  datatype CallOutcome = Resolved | Rejected(message: string)

  class LoginCodeForm {
    const email: string
    const otp: array<string>
    var isLoading: bool
    var error: string
    var resendTimer: nat
    var navigatedTo: Option<string>

    constructor (email: string)
      ensures this.email == email && fresh(otp) && otp.Length == Slots
      ensures forall i :: 0 <= i < Slots ==> otp[i] == ""
      ensures !isLoading && error == "" && resendTimer == ResendSeconds && navigatedTo == None
    {
      this.email := email;
      otp := new string[Slots](_ => "");
      isLoading := false;
      error := "";
      resendTimer := ResendSeconds;
      navigatedTo := None;
    }

    predicate Valid()
      reads this
    {
      otp.Length == Slots
    }

    /** Typing into slot `index`: only digit strings are written, to that
      slot alone; the error stays. */
    method HandleChange(index: nat, value: string)
      requires Valid() && index < Slots
      modifies otp
      ensures AllDigits(value) ==> otp[..] == old(otp[..])[index := value]
      ensures !AllDigits(value) ==> otp[..] == old(otp[..])
    {
      if !AllDigits(value) {
        return;
      }
      otp[index] := value;
    }

    /** Pasting fills the slots from the left with the first six
      characters, if all digits; it never submits. */
    method HandlePaste(text: string)
      requires Valid()
      modifies otp
      ensures var pasted := VerifyOtpForm.PastePrefix(text);
              && (!VerifyOtpForm.AcceptablePaste(pasted) ==> otp[..] == old(otp[..]))
              && (VerifyOtpForm.AcceptablePaste(pasted) ==>
                    (forall i :: 0 <= i < |pasted| ==> otp[i] == [pasted[i]])
                    && (forall i :: |pasted| <= i < Slots ==> otp[i] == old(otp[i])))
    {
      var pasted := VerifyOtpForm.PastePrefix(text);
      if !VerifyOtpForm.AcceptablePaste(pasted) {
        return;
      }
      var i := 0;
      while i < |pasted|
        invariant 0 <= i <= |pasted| <= Slots
        invariant forall j :: 0 <= j < i ==> otp[j] == [pasted[j]]
        invariant forall j :: i <= j < Slots ==> otp[j] == old(otp[j])
      {
        otp[i] := [pasted[i]];
        i := i + 1;
      }
    }

    /** Submitting: an incomplete code is refused before any call; a
      resolved login goes to the dashboard; a rejected one shows its
      message and empties every slot. Returns the code sent, if any. */
    method HandleSubmit(login: CallOutcome) returns (sent: Option<string>)
      requires Valid()
      modifies this, otp
      ensures Valid()
      ensures var code := VerifyOtpForm.Code(old(otp[..]));
              && (sent.Some? <==> |code| == Slots)
              && (sent.Some? ==> sent.value == code && !isLoading)
              && (sent.None? ==> error == IncompleteMessage && otp[..] == old(otp[..])
                                 && navigatedTo == old(navigatedTo) && isLoading == old(isLoading))
              && (sent.Some? && login.Resolved? ==>
                    navigatedTo == Some(DashboardRoute) && error == "" && otp[..] == old(otp[..]))
              && (sent.Some? && login.Rejected? ==>
                    navigatedTo == old(navigatedTo) && error == login.message
                    && forall i :: 0 <= i < Slots ==> otp[i] == "")
      ensures resendTimer == old(resendTimer)
    {
      var code := VerifyOtpForm.Code(otp[..]);
      if |code| != Slots {
        error := IncompleteMessage;
        return None;
      }
      error := "";
      isLoading := true;
      sent := Some(code);
      match login {
        case Resolved =>
          navigatedTo := Some(DashboardRoute);
        case Rejected(message) =>
          error := message;
          var i := 0;
          while i < Slots
            modifies otp
            invariant 0 <= i <= Slots
            invariant forall j :: 0 <= j < i ==> otp[j] == ""
          {
            otp[i] := "";
            i := i + 1;
          }
      }
      isLoading := false;
    }

    method CountDown()
      modifies this
      ensures resendTimer == VerifyOtpForm.Tick(old(resendTimer))
      ensures isLoading == old(isLoading) && error == old(error) && navigatedTo == old(navigatedTo)
    {
      resendTimer := VerifyOtpForm.Tick(resendTimer);
    }

    /** Resend is refused while the countdown runs; a resent code restarts
      it and clears the error, keeping the digits. */
    method HandleResend(outcome: CallOutcome) returns (requested: bool)
      modifies this
      ensures requested <==> old(resendTimer) == 0
      ensures !requested ==> resendTimer == old(resendTimer) && error == old(error)
      ensures requested && outcome.Resolved? ==> resendTimer == ResendSeconds && error == ""
      ensures requested && outcome.Rejected? ==> resendTimer == 0 && error == outcome.message
      ensures isLoading == old(isLoading) && navigatedTo == old(navigatedTo)
    {
      if resendTimer > 0 {
        return false;
      }
      requested := true;
      match outcome {
        case Resolved =>
          resendTimer := ResendSeconds;
          error := "";
        case Rejected(message) =>
          error := message;
      }
    }
  }
}
