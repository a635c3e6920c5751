/** The password-reset code screen: six one-digit slots, typing and
    pasting that accept digits only, an automatic check once the code is
    complete, and a 15-minute resend countdown shown as MM:SS. Each
    backend call is replaced by its outcome. */
module VerifyOtpForm {
  import opened Common

  const Slots := 6
  const ResendSeconds := 900
  const IncompleteMessage := "Please enter all 6 digits"
  const InvalidCodeMessage := "Invalid or expired OTP"
  const ResendFailedMessage := "Failed to resend OTP"

  /** A backend check or resend either succeeds or fails, possibly with
      the server's `error` text. */
  datatype CallOutcome = Succeeded | Failed(error: Option<string>)

  /** The failure text: the server's, unless absent or empty. */
  function ErrorOr(error: Option<string>, fallback: string): (r: string)
    ensures error.Some? && error.value != "" ==> r == error.value
    ensures !(error.Some? && error.value != "") ==> r == fallback
  {
    if error.Some? && error.value != "" then error.value else fallback
  }

  /** The pasted text that is used: its first six characters. */
  function PastePrefix(text: string): (r: string)
    ensures |r| == Min(|text|, Slots) && r == text[..|r|]
  {
    if |text| <= Slots then text else text[..Slots]
  }

  /** The /^\d+$/ test a paste must pass. */
  predicate AcceptablePaste(pasted: string) {
    |pasted| > 0 && AllDigits(pasted)
  }

  /** The slots as a code: their concatenation. */
  function Code(slots: seq<string>): string {
    Join(slots, "")
  }

  lemma {:induction false} CodeLength(slots: seq<string>)
    requires forall i :: 0 <= i < |slots| ==> |slots[i]| == 1
    ensures |Code(slots)| == |slots|
  {
    if |slots| > 1 {
      CodeLength(slots[1..]);
    }
  }

  /** Six filled one-character slots (the inputs hold one character
      each) always make a code that passes the length gate. */
  lemma FullSlotsPassGate(slots: seq<string>)
    requires |slots| == Slots && forall i :: 0 <= i < |slots| ==> |slots[i]| == 1
    ensures |Code(slots)| == Slots
  {
    CodeLength(slots);
  }

  /** formatTime: minutes padded to at least two digits, ':', two-digit
      seconds (see FormatTimeRoundTrip for the values). */
  function FormatTime(seconds: nat): (r: string)
    ensures |r| >= 5 && r[|r| - 3] == ':'
    ensures seconds < 6000 <==> |r| == 5
  {
    PadStart2(NatToString(seconds / 60)) + ":" + PadStart2(NatToString(seconds % 60))
  }

  /** Below 100 the padded decimal is two digits whose value is `n`. */
  lemma TwoDigits(n: nat)
    requires n < 100
    ensures var r := PadStart2(NatToString(n));
            |r| == 2 && IsDigit(r[0]) && IsDigit(r[1]) && DigitValue(r[0]) * 10 + DigitValue(r[1]) == n
  {
    if n >= 10 {
      assert NatToString(n) == NatToString(n / 10) + [DigitChar(n % 10)];
      assert NatToString(n / 10) == [DigitChar(n / 10)];
    }
  }

  /** Below 100 minutes the display is "MM:SS", and its two fields
      recombine to the number of seconds. */
  lemma FormatTimeRoundTrip(seconds: nat)
    requires seconds < 6000
    ensures var t := FormatTime(seconds);
            && |t| == 5 && t[2] == ':'
            && IsDigit(t[0]) && IsDigit(t[1]) && IsDigit(t[3]) && IsDigit(t[4])
            && (DigitValue(t[0]) * 10 + DigitValue(t[1])) * 60 + DigitValue(t[3]) * 10 + DigitValue(t[4]) == seconds
            && DigitValue(t[3]) * 10 + DigitValue(t[4]) < 60
  {
    TwoDigits(seconds / 60);
    TwoDigits(seconds % 60);
  }

  /** The initial countdown reads "15:00". */
  lemma FullCountdownDisplay()
    ensures FormatTime(ResendSeconds) == "15:00"
  {
    assert NatToString(15) == "15" by {
      assert NatToString(1) == "1";
    }
    assert NatToString(0) == "0";
  }

  /** One second of the countdown, floored at zero. */
  function Tick(timer: nat): (r: nat)
    ensures timer > 0 ==> r == timer - 1
    ensures timer == 0 ==> r == 0
  {
    if timer > 0 then timer - 1 else 0
  }

  class CodeForm {
    const email: string
    const otp: array<string>
    var isLoading: bool
    var error: string
    var resendTimer: nat
    /** The code handed to the page once the backend accepted it. */
    var verified: Option<string>

    constructor (email: string)
      ensures this.email == email && fresh(otp) && otp.Length == Slots
      ensures forall i :: 0 <= i < Slots ==> otp[i] == ""
      ensures !isLoading && error == "" && resendTimer == ResendSeconds && verified == None
    {
      this.email := email;
      otp := new string[Slots](_ => "");
      isLoading := false;
      error := "";
      resendTimer := ResendSeconds;
      verified := None;
    }

    predicate Valid()
      reads this
    {
      otp.Length == Slots
    }

    /** The submit button's disabled state. */
    predicate SubmitDisabled()
      reads this, otp
      ensures isLoading ==> SubmitDisabled()
      ensures !SubmitDisabled() ==> forall i :: 0 <= i < otp.Length ==> otp[i] != ""
    {
      isLoading || exists i :: 0 <= i < otp.Length && otp[i] == ""
    }

    method ClearSlots()
      requires Valid()
      modifies otp
      ensures forall i :: 0 <= i < Slots ==> otp[i] == ""
    {
      var i := 0;
      while i < Slots
        invariant 0 <= i <= Slots
        invariant forall j :: 0 <= j < i ==> otp[j] == ""
      {
        otp[i] := "";
        i := i + 1;
      }
    }

    /** handleVerify. Returns whether the check was requested. */
    method HandleVerify(code: string, outcome: CallOutcome) returns (requested: bool)
      requires Valid()
      modifies this, otp
      ensures Valid()
      ensures requested <==> |code| == Slots
      ensures !requested ==> error == IncompleteMessage && otp[..] == old(otp[..]) && verified == old(verified)
      ensures requested && outcome.Succeeded? ==> verified == Some(code) && error == "" && otp[..] == old(otp[..])
      ensures requested && outcome.Failed? ==>
                verified == old(verified) && error == ErrorOr(outcome.error, InvalidCodeMessage)
                && forall i :: 0 <= i < Slots ==> otp[i] == ""
      ensures requested ==> !isLoading
      ensures !requested ==> isLoading == old(isLoading)
      ensures resendTimer == old(resendTimer)
    {
      if |code| != Slots {
        error := IncompleteMessage;
        return false;
      }
      error := "";
      isLoading := true;
      match outcome {
        case Succeeded =>
          verified := Some(code);
        case Failed(e) =>
          error := ErrorOr(e, InvalidCodeMessage);
          ClearSlots();
      }
      isLoading := false;
      requested := true;
    }

    /** Typing into slot `index`: a value with a non-digit is ignored;
      otherwise only that slot changes and the error is cleared. Editing
      the last slot with every slot filled checks the code. */
    method HandleChange(index: nat, value: string, outcome: CallOutcome) returns (autoVerified: bool)
      requires Valid() && index < Slots
      modifies this, otp
      ensures Valid()
      ensures !AllDigits(value) ==>
                !autoVerified && otp[..] == old(otp[..]) && error == old(error) && verified == old(verified)
                && isLoading == old(isLoading)
      ensures AllDigits(value) ==>
                var written := old(otp[..])[index := value];
                && (autoVerified <==> index == Slots - 1 && forall i :: 0 <= i < Slots ==> written[i] != "")
                && (!autoVerified ==> otp[..] == written && error == "" && verified == old(verified)
                                      && isLoading == old(isLoading))
                && (autoVerified && |Code(written)| != Slots ==>
                      otp[..] == written && error == IncompleteMessage && verified == old(verified)
                      && isLoading == old(isLoading))
                && (autoVerified && |Code(written)| == Slots ==> !isLoading)
                && (autoVerified && |Code(written)| == Slots && outcome.Succeeded? ==>
                      otp[..] == written && error == "" && verified == Some(Code(written)))
                && (autoVerified && |Code(written)| == Slots && outcome.Failed? ==>
                      verified == old(verified) && error == ErrorOr(outcome.error, InvalidCodeMessage)
                      && forall i :: 0 <= i < Slots ==> otp[i] == "")
      ensures resendTimer == old(resendTimer)
    {
      if !AllDigits(value) {
        return false;
      }
      otp[index] := value;
      error := "";
      autoVerified := index == Slots - 1 && forall i :: 0 <= i < Slots ==> otp[i] != "";
      if autoVerified {
        var _ := HandleVerify(Code(otp[..]), outcome);
      }
    }

    /** Pasting: the first six characters, if all digits, fill the slots
      from the left; the rest keep their values. A six-digit paste is
      checked at once. */
    method HandlePaste(text: string, outcome: CallOutcome) returns (autoVerified: bool)
      requires Valid()
      modifies this, otp
      ensures Valid()
      ensures var pasted := PastePrefix(text);
              && (autoVerified <==> AcceptablePaste(pasted) && |pasted| == Slots)
              && (!AcceptablePaste(pasted) ==>
                    otp[..] == old(otp[..]) && error == old(error) && verified == old(verified) && isLoading == old(isLoading))
              && (AcceptablePaste(pasted) && !autoVerified ==>
                    (forall i :: 0 <= i < |pasted| ==> otp[i] == [pasted[i]])
                    && (forall i :: |pasted| <= i < Slots ==> otp[i] == old(otp[i]))
                    && error == old(error) && verified == old(verified) && isLoading == old(isLoading))
              && (autoVerified ==> !isLoading)
              && (autoVerified && outcome.Succeeded? ==>
                    (forall i :: 0 <= i < Slots ==> otp[i] == [pasted[i]]) && verified == Some(pasted) && error == "")
              && (autoVerified && outcome.Failed? ==>
                    (forall i :: 0 <= i < Slots ==> otp[i] == "") && verified == old(verified)
                    && error == ErrorOr(outcome.error, InvalidCodeMessage))
      ensures resendTimer == old(resendTimer)
    {
      var pasted := PastePrefix(text);
      if !AcceptablePaste(pasted) {
        return false;
      }
      var i := 0;
      while i < |pasted|
        modifies otp
        invariant 0 <= i <= |pasted| <= Slots
        invariant forall j :: 0 <= j < i ==> otp[j] == [pasted[j]]
        invariant forall j :: i <= j < Slots ==> otp[j] == old(otp[j])
      {
        otp[i] := [pasted[i]];
        i := i + 1;
      }
      autoVerified := |pasted| == Slots;
      if autoVerified {
        var _ := HandleVerify(pasted, outcome);
      }
    }

    /** The submit button checks the joined slots. */
    method HandleSubmit(outcome: CallOutcome) returns (requested: bool)
      requires Valid()
      modifies this, otp
      ensures Valid()
      ensures requested <==> |Code(old(otp[..]))| == Slots
      ensures !requested ==> error == IncompleteMessage && otp[..] == old(otp[..]) && verified == old(verified)
      ensures requested && outcome.Succeeded? ==>
                verified == Some(Code(old(otp[..]))) && error == "" && otp[..] == old(otp[..])
      ensures requested && outcome.Failed? ==>
                verified == old(verified) && error == ErrorOr(outcome.error, InvalidCodeMessage)
                && forall i :: 0 <= i < Slots ==> otp[i] == ""
      ensures requested ==> !isLoading
      ensures !requested ==> isLoading == old(isLoading)
      ensures resendTimer == old(resendTimer)
    {
      requested := HandleVerify(Code(otp[..]), outcome);
    }

    /** One second of the countdown. */
    method CountDown()
      modifies this
      ensures resendTimer == Tick(old(resendTimer))
      ensures isLoading == old(isLoading) && error == old(error) && verified == old(verified)
    {
      resendTimer := Tick(resendTimer);
    }

    /** Resend is refused while the countdown runs; a resent code restarts
      it and clears the slots and the error. */
    method HandleResend(outcome: CallOutcome) returns (requested: bool)
      requires Valid()
      modifies this, otp
      ensures Valid()
      ensures requested <==> old(resendTimer) == 0
      ensures !requested ==> resendTimer == old(resendTimer) && error == old(error) && otp[..] == old(otp[..])
      ensures requested && outcome.Succeeded? ==>
                resendTimer == ResendSeconds && error == "" && forall i :: 0 <= i < Slots ==> otp[i] == ""
      ensures requested && outcome.Failed? ==>
                resendTimer == 0 && error == ErrorOr(outcome.error, ResendFailedMessage) && otp[..] == old(otp[..])
      ensures isLoading == old(isLoading) && verified == old(verified)
    {
      if resendTimer > 0 {
        return false;
      }
      requested := true;
      match outcome {
        case Succeeded =>
          resendTimer := ResendSeconds;
          error := "";
          ClearSlots();
        case Failed(e) =>
          error := ErrorOr(e, ResendFailedMessage);
      }
    }
  }
}
