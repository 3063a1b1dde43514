/**
 * `app/onboarding/business-profile.tsx`: a business gives its name, pins its
 * address and submits its NIC image and number. `handleContinue` checks them
 * in order, completes onboarding with a business profile record, and then
 * sends the NIC for verification. The image picker, the map and the upload
 * request are left out; what they hand back is passed in.
 */
module BusinessProfile {
  import opened Wrappers
  import opened Js
  import Strings
  import Auth
  import Nic

  /** The screen's fields. An image is a picked uri; `Some("")` is as falsy
      as no image. */
  datatype Form = Form(
    businessName: string,
    address: string,
    nicImage: Option<string>,
    nicNumber: string,
    pin: Option<(Value, Value)>)

  predicate HasImage(f: Form) {
    f.nicImage.Some? && f.nicImage.value != ""
  }

  datatype Refusal = NameRequired | PinRequired | ImageRequired | NicInvalid

  /** The toast each refusal shows. */
  function Alert(r: Refusal): string {
    match r
    case NameRequired => "Please enter your business name"
    case PinRequired => "Please pin your business location"
    case ImageRequired => "Please upload your NIC image"
    case NicInvalid => "Please enter a valid 13-digit NIC number"
  }

  /** The checks of `handleContinue`, in source order. */
  function FirstRefusal(f: Form): (r: Option<Refusal>)
    ensures r == Some(NameRequired) <==> Strings.IsBlank(f.businessName)
    ensures r == Some(PinRequired) <==> !Strings.IsBlank(f.businessName) && f.address == ""
    ensures r == Some(ImageRequired) <==> !Strings.IsBlank(f.businessName) && f.address != "" && !HasImage(f)
    ensures r == Some(NicInvalid) <==>
      !Strings.IsBlank(f.businessName) && f.address != "" && HasImage(f)
      && (Strings.IsBlank(f.nicNumber) || |f.nicNumber| < Nic.NicLength)
    ensures r.None? <==>
      !Strings.IsBlank(f.businessName) && f.address != "" && HasImage(f)
      && !Strings.IsBlank(f.nicNumber) && |f.nicNumber| >= Nic.NicLength
  {
    if Strings.Trim(f.businessName) == "" then Some(NameRequired)
    else if f.address == "" then Some(PinRequired)
    else if !HasImage(f) then Some(ImageRequired)
    else if Strings.Trim(f.nicNumber) == "" || |f.nicNumber| < Nic.NicLength then Some(NicInvalid)
    else None
  }

  /** The submit button's `disabled` expression: the number's length is
      checked, its blankness is not. */
  predicate ButtonDisabled(f: Form, isLoading: bool) {
    Strings.Trim(f.businessName) == "" || f.address == "" || !HasImage(f) || |f.nicNumber| < Nic.NicLength || isLoading
  }

  /** For a number the field can hold (digits only), the button is disabled
      exactly while a save is in flight or a check would refuse. */
  lemma ButtonMirrorsChecks(f: Form, isLoading: bool, typed: string)
    requires f.nicNumber == Nic.NicInput(typed)
    ensures ButtonDisabled(f, isLoading) <==> isLoading || FirstRefusal(f).Some?
  {
    Nic.TypedNicTrimmed(typed);
  }

  /** Without the digit filter the two differ: thirteen spaces enable the
      button and are refused by the check. */
  lemma BlankNumberEnablesButton(f: Form)
    requires !Strings.IsBlank(f.businessName) && f.address != "" && HasImage(f)
    requires f.nicNumber == "             "
    ensures !ButtonDisabled(f, false) && FirstRefusal(f) == Some(NicInvalid)
  {
    assert |f.nicNumber| == 13;
    assert Strings.IsBlank(f.nicNumber);
  }

  /** The `profileData` passed to `completeOnboarding`: the business name as
      typed, the owner's name from the user (`''` when it is falsy), the one
      address as both the location list and the business address, and the
      pin's coordinates. */
  function ProfileRecord(f: Form, user: Option<Auth.Record>): (r: Auth.Record)
    ensures "ownerName" in r && "userType" !in r && "businessName" in r
    ensures r["businessName"] == Str(f.businessName)
    ensures user.Some? && Truthy(FieldOf(user.value, "name")) ==> r["ownerName"] == FieldOf(user.value, "name")
    ensures user.None? || !Truthy(FieldOf(user.value, "name")) ==> r["ownerName"] == Str("")
    ensures FieldOf(r, "locations") == Arr([Str(f.address)]) && FieldOf(r, "businessAddress") == Str(f.address)
    ensures FieldOf(r, "serviceOfferings") == Arr([])
    ensures f.pin.Some? ==> FieldOf(r, "latitude") == f.pin.value.0 && FieldOf(r, "longitude") == f.pin.value.1
    ensures f.pin.None? ==> FieldOf(r, "latitude") == Undefined && FieldOf(r, "longitude") == Undefined
    ensures r.Keys == {"businessName", "ownerName", "serviceOfferings", "locations", "businessAddress",
                       "latitude", "longitude"}
  {
    var owner := if user.Some? then Or(FieldOf(user.value, "name"), Str("")) else Str("");
    map["businessName" := Str(f.businessName), "ownerName" := owner, "serviceOfferings" := Arr([]),
        "locations" := Arr([Str(f.address)]), "businessAddress" := Str(f.address),
        "latitude" := if f.pin.Some? then f.pin.value.0 else Undefined,
        "longitude" := if f.pin.Some? then f.pin.value.1 else Undefined]
  }

  /** Completing onboarding with this record keeps a named user's name and
      marks onboarding completed; the owner name is read the same way before
      and after the correction of `completeOnboarding`. */
  lemma CompletionKeepsOwnerName(u: Auth.Record, f: Form)
    requires Truthy(FieldOf(u, "name"))
    ensures var r := Auth.AfterCompleteOnboarding(Some(u), ProfileRecord(f, Some(u)));
      r.Some? && FieldOf(r.value, "name") == FieldOf(u, "name")
      && FieldOf(r.value, "onboardingStatus") == Str("completed")
    ensures Auth.AfterCompleteOnboardingAsWritten(Some(u), ProfileRecord(f, Some(u)))
      == Auth.AfterCompleteOnboarding(Some(u), ProfileRecord(f, Some(u)))
  {
    var p := ProfileRecord(f, Some(u));
    assert "ownerName" in p && "userType" !in p;
    assert FieldOf(p, "ownerName") == p["ownerName"];
  }

  /** The verification request on a native device: the trimmed number and
      the image upload. */
  datatype Verification = Verification(nicNumber: string, nic: Nic.Upload)

  function VerificationRequest(f: Form, nicImageName: Option<string>): (r: Verification)
    requires HasImage(f)
    ensures r.nicNumber == Strings.Trim(f.nicNumber)
    ensures r.nic.uri == f.nicImage.value
    ensures r.nic.mimeType == Nic.MimeType(Nic.Extension(f.nicImage.value))
    ensures r.nic == Nic.NativeUpload(f.nicImage.value, nicImageName)
    ensures nicImageName.Some? && nicImageName.value != "" ==> r.nic.name == nicImageName.value
    ensures nicImageName.None? || nicImageName.value == "" ==> r.nic.name == "nic." + Nic.Extension(f.nicImage.value)
  {
    Verification(Strings.Trim(f.nicNumber), Nic.NativeUpload(f.nicImage.value, nicImageName))
  }

  /** How the request ends: a successful response, a failed one, or a
      thrown error. What follows a success is `AttemptEnding`'s. */
  datatype Result = Succeeded | Rejected(message: Value) | Threw

  /** The toast each result shows; a rejection shows the response's message
      or the default. */
  function ResultToast(r: Result): (t: Value)
    ensures r.Succeeded? ==> t == Str("Onboarding completed successfully!")
    ensures r.Rejected? && Truthy(r.message) ==> t == r.message
    ensures r.Rejected? && !Truthy(r.message) ==> t == Str("Failed to submit verification")
    ensures r.Threw? ==> t == Str("Failed to complete onboarding")
  {
    match r
    case Succeeded => Str("Onboarding completed successfully!")
    case Rejected(m) => Or(m, Str("Failed to submit verification"))
    case Threw => Str("Failed to complete onboarding")
  }

  /** What the user sees at the end of an attempt: the toasts in the order
      shown and the route replaced to, if any. */
  datatype Ending = Ending(toasts: seq<Value>, route: Option<string>)

  /** The end of an attempt whose request ended in `r`. After a success the
      screen awaits `refreshProfile()`: `refresh` is that member, `None`
      when the auth context has none, `Some(ok)` when it has one that
      resolves iff `ok`. A missing or failing refresh throws into the
      catch, so its toast follows the success toast and no route is
      replaced. */
  function AttemptEnding(r: Result, refresh: Option<bool>): (e: Ending)
    ensures !r.Succeeded? ==> e == Ending([ResultToast(r)], None)
    ensures r.Succeeded? && refresh == Some(true) ==>
      e == Ending([Str("Onboarding completed successfully!")], Some("/"))
    ensures r.Succeeded? && refresh != Some(true) ==>
      e == Ending([Str("Onboarding completed successfully!"), Str("Failed to complete onboarding")], None)
    ensures e.route.Some? <==> r.Succeeded? && refresh == Some(true)
  {
    if r.Succeeded? then
      if refresh == Some(true) then Ending([ResultToast(r)], Some("/"))
      else Ending([ResultToast(r), ResultToast(Threw)], None)
    else Ending([ResultToast(r)], None)
  }

  /** With the auth context as it is, without `refreshProfile`, no attempt
      leaves the screen, and a successful one ends on the catch toast. */
  lemma NoRefreshNeverLeaves(r: Result)
    ensures AttemptEnding(r, None).route.None?
    ensures r.Succeeded? ==>
      AttemptEnding(r, None).toasts[|AttemptEnding(r, None).toasts| - 1] == Str("Failed to complete onboarding")
  {
  }
}
