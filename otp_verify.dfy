/**
 * `app/auth/otp-verify.tsx`: six single-digit input slots, a countdown
 * for the resend link, and the verify and resend handlers. React state
 * updates become field assignments; a new slot array replaces the old one,
 * as `setOtp` does. The outcome of the asynchronous `verifyOTP` and
 * `resendOTP` calls is passed in.
 */
module OtpVerify {
  import opened Wrappers
  import opened Js
  import Strings
  import Auth
  import RootLayout

  const SlotCount: nat := 6
  const TimerStart: int := 60

  const IncorrectCode := "The code you entered is incorrect. Please try again."
  const VerifyFailed := "Failed to verify OTP. Please try again."
  const ResendFailed := "Failed to resend OTP. Please try again."

  /** What awaiting `verifyOTP(code)` gave: a boolean, or a thrown error. */
  datatype VerifyOutcome = Accepted | Rejected | Threw(error: Value)

  /** A slot holds nothing or one digit. */
  predicate SlotOk(s: string) {
    |s| <= 1 && Strings.AllDigits(s)
  }

  /** The text a slot keeps after `handleOtpChange(value)`, or `None` when
      the input holds a non-digit and is ignored. A pasted run of digits
      keeps only its first digit. */
  function SlotInput(value: string): (r: Option<string>)
    ensures r.None? <==> !Strings.AllDigits(value)
    ensures r.Some? ==> SlotOk(r.value)
    ensures r.Some? && value != "" ==> r.value == [value[0]]
    ensures r.Some? && value == "" ==> r.value == ""
  {
    var numeric := Strings.DigitsOf(value);
    if numeric != value && |value| > 0 then None
    else if |numeric| > 1 then Some([numeric[0]])
    else Some(numeric)
  }

  /** The code `handleVerify` submits: the slots joined with `''`. */
  function Code(slots: seq<string>): string {
    Strings.Join(slots, "")
  }

  /** With slots of at most one character, the code is as long as the number
      of filled slots; so it has length 6 exactly when all six are filled. */
  lemma {:induction false} CodeLength(slots: seq<string>)
    requires forall i :: 0 <= i < |slots| ==> |slots[i]| <= 1
    ensures |Code(slots)| <= |slots|
    ensures |Code(slots)| == |slots| <==> forall i :: 0 <= i < |slots| ==> slots[i] != ""
    decreases |slots|
  {
    if |slots| > 1 {
      CodeLength(slots[1..]);
      assert Code(slots) == slots[0] + Code(slots[1..]);
      assert forall i :: 1 <= i < |slots| ==> slots[i] == slots[1..][i - 1];
    }
  }

  /** `error.message || error.error || fallback`. */
  function ErrorText(error: Value, fallback: string): (r: Value)
    requires !Nullish(error)
    ensures Truthy(Prop(error, "message")) ==> r == Prop(error, "message")
    ensures !Truthy(Prop(error, "message")) && Truthy(Prop(error, "error")) ==> r == Prop(error, "error")
    ensures !Truthy(Prop(error, "message")) && !Truthy(Prop(error, "error")) ==> r == Str(fallback)
  {
    Or(Prop(error, "message"), Or(Prop(error, "error"), Str(fallback)))
  }

  /** The redirect of a user already marked verified (the effect on `[user]`). */
  function VerifiedRedirect(user: Option<Auth.Record>): (r: Option<RootLayout.Target>)
    ensures r.Some? <==> user.Some? && FieldOf(user.value, "isVerified") == Bool(true)
    ensures r.Some? ==> (r.value == RootLayout.Tabs <==> RootLayout.Completed(user.value))
    ensures r.Some? ==> (r.value == RootLayout.OnboardingStart <==>
      !RootLayout.Completed(user.value)
      && (FieldOf(user.value, "onboardingStatus") == Str("in_progress") || Truthy(FieldOf(user.value, "userType"))))
    ensures r.Some? ==> (r.value == RootLayout.UserTypeScreen <==>
      !RootLayout.Completed(user.value) && FieldOf(user.value, "onboardingStatus") != Str("in_progress")
      && !Truthy(FieldOf(user.value, "userType")))
  {
    match user
    case None => None
    case Some(u) =>
      if FieldOf(u, "isVerified") != Bool(true) then None
      else if FieldOf(u, "onboardingStatus") == Str("completed") then Some(RootLayout.Tabs)
      else if FieldOf(u, "onboardingStatus") == Str("in_progress") then Some(RootLayout.OnboardingStart)
      else if Truthy(FieldOf(u, "userType")) then Some(RootLayout.OnboardingStart)
      else Some(RootLayout.UserTypeScreen)
  }

  class OtpScreen {
    var otp: array<string>
    var timer: int
    var isVerifying: bool
    var errorMessage: Value

    predicate Valid()
      reads this, otp
    {
      otp.Length == SlotCount && 0 <= timer <= TimerStart
      && forall i :: 0 <= i < otp.Length ==> SlotOk(otp[i])
    }

    /** Six empty slots and a full countdown. */
    constructor()
      ensures Valid() && fresh(otp)
      ensures otp[..] == ["", "", "", "", "", ""] && timer == TimerStart
      ensures !isVerifying && errorMessage == Null
    {
      otp := new string[6](_ => "");
      timer := TimerStart;
      isVerifying := false;
      errorMessage := Null;
    }

    /** `setOtp(['', '', '', '', '', ''])`. */
    method ClearSlots()
      modifies this
      ensures fresh(otp) && otp[..] == ["", "", "", "", "", ""]
      ensures timer == old(timer) && isVerifying == old(isVerifying) && errorMessage == old(errorMessage)
    {
      otp := new string[6](_ => "");
    }

    /** `handleOtpChange(value, index)`: a copy of the slots with one slot
        replaced; input with a non-digit leaves everything as it was. */
    method HandleOtpChange(value: string, index: nat)
      requires Valid() && index < SlotCount
      modifies this
      ensures Valid()
      ensures SlotInput(value).None? ==> otp == old(otp) && otp[..] == old(otp[..])
      ensures SlotInput(value).Some? ==> fresh(otp) && otp[..] == old(otp[..])[index := SlotInput(value).value]
      ensures timer == old(timer) && isVerifying == old(isVerifying) && errorMessage == old(errorMessage)
    {
      var numeric := Strings.DigitsOf(value);
      if numeric != value && |value| > 0 {
        return;
      }
      var slot := if |numeric| > 1 then [numeric[0]] else numeric;
      var current := otp;
      var newOtp := new string[6](i reads current requires 0 <= i < 6 => current[i]);
      newOtp[index] := slot;
      otp := newOtp;
    }

    /** One interval tick: down by one, never below zero. */
    method Tick()
      requires Valid()
      modifies this
      ensures Valid() && otp == old(otp)
      ensures timer == if old(timer) > 0 then old(timer) - 1 else 0
      ensures isVerifying == old(isVerifying) && errorMessage == old(errorMessage)
    {
      timer := if timer > 0 then timer - 1 else 0;
    }

    /** The first half of `handleVerify`, up to the `await`: it goes ahead
        only with a six-character code and no verification in flight. */
    method StartVerify() returns (code: Option<string>)
      requires Valid()
      modifies this
      ensures Valid() && otp == old(otp) && timer == old(timer)
      ensures code.Some? <==> |Code(old(otp[..]))| == 6 && !old(isVerifying)
      ensures code.Some? ==> code.value == Code(old(otp[..])) && isVerifying && errorMessage == Null
      ensures code.None? ==> isVerifying == old(isVerifying) && errorMessage == old(errorMessage)
    {
      var c := Code(otp[..]);
      if |c| != 6 {
        return None;
      }
      if isVerifying {
        return None;
      }
      errorMessage := Null;
      isVerifying := true;
      return Some(c);
    }

    /** The rest of `handleVerify`, once `verifyOTP` has answered: a refusal
        or an error shows a message and empties all six slots. */
    method FinishVerify(outcome: VerifyOutcome)
      requires Valid() && isVerifying
      requires outcome.Threw? ==> !Nullish(outcome.error)
      modifies this
      ensures Valid() && !isVerifying && timer == old(timer)
      ensures outcome.Accepted? ==> otp == old(otp) && errorMessage == old(errorMessage)
      ensures outcome.Rejected? ==> otp[..] == ["", "", "", "", "", ""] && errorMessage == Str(IncorrectCode)
      ensures outcome.Threw? ==>
        otp[..] == ["", "", "", "", "", ""] && errorMessage == ErrorText(outcome.error, VerifyFailed)
    {
      match outcome {
        case Accepted =>
        case Rejected =>
          errorMessage := Str(IncorrectCode);
          ClearSlots();
        case Threw(error) =>
          errorMessage := ErrorText(error, VerifyFailed);
          ClearSlots();
      }
      isVerifying := false;
    }

    /** `handleResend`; `thrown` is the error `resendOTP()` threw, if any.
        Success restarts the countdown and empties the slots. */
    method HandleResend(thrown: Option<Value>)
      requires Valid()
      requires thrown.Some? ==> !Nullish(thrown.value)
      modifies this
      ensures Valid() && isVerifying == old(isVerifying)
      ensures thrown.None? ==> timer == TimerStart && otp[..] == ["", "", "", "", "", ""] && errorMessage == Null
      ensures thrown.Some? ==>
        timer == old(timer) && otp == old(otp) && errorMessage == ErrorText(thrown.value, ResendFailed)
    {
      errorMessage := Null;
      if thrown.None? {
        timer := TimerStart;
        ClearSlots();
      } else {
        errorMessage := ErrorText(thrown.value, ResendFailed);
      }
    }
  }

  /** The code can be submitted exactly when all six slots are filled. */
  lemma CodeReadyIffFilled(slots: seq<string>)
    requires |slots| == SlotCount && forall i :: 0 <= i < |slots| ==> SlotOk(slots[i])
    ensures |Code(slots)| == 6 <==> forall i :: 0 <= i < |slots| ==> |slots[i]| == 1
  {
    CodeLength(slots);
  }
}
