/**
 * `app/onboarding/business.tsx`: the business verification screen. It
 * requires a NIC image and a NIC number, only logs a number of non-standard
 * format, and sends the trimmed number with the image. The picker and the
 * request are left out; what they hand back is passed in.
 */
module BusinessVerification {
  import opened Wrappers
  import opened Js
  import Strings
  import Nic

  datatype Refusal = ImageRequired | NumberRequired

  /** The toast each refusal shows. */
  function Alert(r: Refusal): string {
    match r
    case ImageRequired => "Please upload your NIC image"
    case NumberRequired => "Please enter your NIC number"
  }

  /** `/^\d{5}-\d{7}-\d$/`. */
  predicate Dashed(s: string) {
    |s| == 15 && s[5] == '-' && s[13] == '-'
    && Strings.AllDigits(s[..5]) && Strings.AllDigits(s[6..13]) && Strings.AllDigits(s[14..])
  }

  /** The format the screen expects: `/^\d{13}$/` or the dashed form. */
  predicate StandardFormat(s: string) {
    Dashed(s) || (|s| == Nic.NicLength && Strings.AllDigits(s))
  }

  /** What `handleSubmit` does before the request: refuse, or send the
      trimmed number, with whether the format check logged a warning. */
  datatype Submit = Refused(refusal: Refusal) | Send(nicNumber: string, nic: Nic.Upload, warned: bool)

  /** `handleSubmit` up to the request (native devices). */
  function HandleSubmit(nicImage: Option<string>, nicImageName: Option<string>, nicNumber: string): (r: Submit)
    ensures r == Refused(ImageRequired) <==> nicImage.None? || nicImage.value == ""
    ensures r == Refused(NumberRequired) <==> nicImage.Some? && nicImage.value != "" && Strings.IsBlank(nicNumber)
    ensures r.Send? <==> nicImage.Some? && nicImage.value != "" && !Strings.IsBlank(nicNumber)
    ensures r.Send? ==>
      r.nicNumber == Strings.Trim(nicNumber) && r.nic == Nic.NativeUpload(nicImage.value, nicImageName)
      && (r.warned <==> !StandardFormat(Strings.Trim(nicNumber)))
  {
    if nicImage.None? || nicImage.value == "" then Refused(ImageRequired)
    else if Strings.Trim(nicNumber) == "" then Refused(NumberRequired)
    else
      var trimmed := Strings.Trim(nicNumber);
      Send(trimmed, Nic.NativeUpload(nicImage.value, nicImageName), !StandardFormat(trimmed))
  }

  /** The format check never blocks: a number of any format is sent. */
  lemma FormatNeverBlocks(nicImage: string, nicImageName: Option<string>, nicNumber: string)
    requires nicImage != "" && !Strings.IsBlank(nicNumber) && !StandardFormat(Strings.Trim(nicNumber))
    ensures HandleSubmit(Some(nicImage), nicImageName, nicNumber).Send?
    ensures HandleSubmit(Some(nicImage), nicImageName, nicNumber).warned
  {
  }

  /** The field only ever holds digits, so the dashed form can never match a
      typed number: the check warns exactly for fewer than 13 digits. */
  lemma TypedNumberFormat(typed: string)
    ensures !Dashed(Nic.NicInput(typed))
    ensures StandardFormat(Strings.Trim(Nic.NicInput(typed))) <==> |Nic.NicInput(typed)| == Nic.NicLength
  {
    Nic.TypedNicTrimmed(typed);
  }

  /** The last part of the picked uri's path, which the screen keeps as the
      file name. */
  function PickedName(uri: string): (r: string)
    ensures '/' !in r
    ensures '/' !in uri ==> r == uri
  {
    var parts := Strings.Split(uri, "/");
    Strings.SplitPiecesFree(uri, "/");
    Strings.NotContainsChar(parts[|parts| - 1], '/');
    Strings.SplitWithoutSeparator(uri, '/');
    parts[|parts| - 1]
  }

  /** Whatever precedes the last slash, the name is what follows it. */
  lemma PickedNameAfterSlash(dir: string, file: string)
    requires '/' !in file
    ensures PickedName(dir + "/" + file) == file
  {
    Strings.SplitLastPiece(dir, '/', file);
    assert dir + "/" + file == dir + ['/'] + file;
  }

  /** How the request ends. A thrown error carries its `message`. */
  datatype Result = Succeeded | Rejected(message: Value) | Threw(errorMessage: Value)

  /** The toast each result shows. */
  function ResultToast(r: Result): (t: Value)
    ensures r.Succeeded? ==> t == Str("Verification submitted successfully!")
    ensures r.Rejected? && Truthy(r.message) ==> t == r.message
    ensures r.Rejected? && !Truthy(r.message) ==> t == Str("Failed to submit verification")
    ensures r.Threw? && Truthy(r.errorMessage) ==> t == r.errorMessage
    ensures r.Threw? && !Truthy(r.errorMessage) ==> t == Str("Failed to submit. Please try again.")
  {
    match r
    case Succeeded => Str("Verification submitted successfully!")
    case Rejected(m) => Or(m, Str("Failed to submit verification"))
    case Threw(m) => Or(m, Str("Failed to submit. Please try again."))
  }

  /** What the user sees at the end of an attempt: the toasts in the order
      shown and the route replaced to, if any. */
  datatype Ending = Ending(toasts: seq<Value>, route: Option<string>)

  /** The end of an attempt whose request ended in `r`. After a success the
      screen awaits `refreshProfile()`: `refresh` is that member, `None`
      when the auth context has none, `Some(ok)` when it has one that
      resolves iff `ok`; `refreshError` is the `message` of the error a
      missing or failing refresh throws. That error lands in the catch, so
      its toast follows the success toast and the dashboard is not
      reached. */
  function AttemptEnding(r: Result, refresh: Option<bool>, refreshError: Value): (e: Ending)
    ensures !r.Succeeded? ==> e == Ending([ResultToast(r)], None)
    ensures r.Succeeded? && refresh == Some(true) ==>
      e == Ending([Str("Verification submitted successfully!")], Some("/business/dashboard"))
    ensures r.Succeeded? && refresh != Some(true) ==>
      e == Ending([Str("Verification submitted successfully!"),
                   Or(refreshError, Str("Failed to submit. Please try again."))], None)
    ensures e.route.Some? <==> r.Succeeded? && refresh == Some(true)
  {
    if r.Succeeded? then
      if refresh == Some(true) then Ending([ResultToast(r)], Some("/business/dashboard"))
      else Ending([ResultToast(r), ResultToast(Threw(refreshError))], None)
    else Ending([ResultToast(r)], None)
  }

  /** With the auth context as it is, without `refreshProfile`, no attempt
      reaches the dashboard, and a successful one ends on the catch toast
      of the refresh's error. */
  lemma NoRefreshNeverLeaves(r: Result, refreshError: Value)
    ensures AttemptEnding(r, None, refreshError).route.None?
    ensures r.Succeeded? ==>
      var e := AttemptEnding(r, None, refreshError);
      |e.toasts| == 2 && e.toasts[1] == Or(refreshError, Str("Failed to submit. Please try again."))
  {
  }
}
