/**
 * `app/workers/add.tsx`: the form a business fills in to add one worker.
 * Its fields live in separate pieces of React state, so the form is a class
 * whose toggles and "Add Another" reset update them in place; the checks and
 * the `workerData` payload read a snapshot of them.
 */
module WorkerAdd {
  import opened Wrappers
  import Strings
  import ListOps

  /** A snapshot of the thirteen fields. The pin is a pair of coordinates. */
  datatype Form = Form(
    fullName: string,
    phone: string,
    selectedServices: seq<string>,
    pinLocation: Option<(real, real)>,
    pinAddress: string,
    experienceYears: string,
    age: string,
    gender: string,
    religion: string,
    languages: seq<string>,
    availability: string,
    skills: string,
    bio: string)

  /** Every field as the screen first shows it; availability is full time. */
  const InitialForm: Form := Form("", "", [], None, "", "", "", "", "", [], "full_time", "", "")

  datatype Rejection =
    | FullNameRequired
    | PhoneRequired
    | ServiceRequired
    | ExperienceRequired
    | AgeRequired
    | GenderRequired
    | ReligionRequired
    | LanguageRequired

  /** The alert text of each check. */
  function Message(r: Rejection): string {
    match r
    case FullNameRequired => "Full name is required"
    case PhoneRequired => "Phone number is required"
    case ServiceRequired => "Please select at least one service type"
    case ExperienceRequired => "Experience is required"
    case AgeRequired => "Age is required"
    case GenderRequired => "Gender is required"
    case ReligionRequired => "Religion is required"
    case LanguageRequired => "Please select at least one language"
  }

  /** Everything `handleSubmit` demands, stated together. Gender and
      religion are checked untrimmed. */
  predicate Acceptable(f: Form) {
    !Strings.IsBlank(f.fullName) && !Strings.IsBlank(f.phone) && |f.selectedServices| > 0
    && !Strings.IsBlank(f.experienceYears) && !Strings.IsBlank(f.age)
    && f.gender != "" && f.religion != "" && |f.languages| > 0
  }

  /** The first three checks: name, phone and at least one service. */
  function IdentityFailure(f: Form): (r: Option<Rejection>)
    ensures r.None? <==> !Strings.IsBlank(f.fullName) && !Strings.IsBlank(f.phone) && |f.selectedServices| > 0
    ensures r == Some(FullNameRequired) <==> Strings.IsBlank(f.fullName)
    ensures r == Some(PhoneRequired) <==> !Strings.IsBlank(f.fullName) && Strings.IsBlank(f.phone)
    ensures r == Some(ServiceRequired) <==>
      !Strings.IsBlank(f.fullName) && !Strings.IsBlank(f.phone) && f.selectedServices == []
    ensures r.Some? ==> r.value in {FullNameRequired, PhoneRequired, ServiceRequired}
  {
    if Strings.Trim(f.fullName) == "" then Some(FullNameRequired)
    else if Strings.Trim(f.phone) == "" then Some(PhoneRequired)
    else if |f.selectedServices| == 0 then Some(ServiceRequired)
    else None
  }

  /** The last five checks: experience, age, gender, religion and at least
      one language. */
  function DetailFailure(f: Form): (r: Option<Rejection>)
    ensures r.None? <==>
      !Strings.IsBlank(f.experienceYears) && !Strings.IsBlank(f.age)
      && f.gender != "" && f.religion != "" && |f.languages| > 0
    ensures r == Some(ExperienceRequired) <==> Strings.IsBlank(f.experienceYears)
    ensures r == Some(AgeRequired) <==> !Strings.IsBlank(f.experienceYears) && Strings.IsBlank(f.age)
    ensures r == Some(GenderRequired) <==>
      !Strings.IsBlank(f.experienceYears) && !Strings.IsBlank(f.age) && f.gender == ""
    ensures r == Some(ReligionRequired) <==>
      !Strings.IsBlank(f.experienceYears) && !Strings.IsBlank(f.age) && f.gender != "" && f.religion == ""
    ensures r == Some(LanguageRequired) <==>
      !Strings.IsBlank(f.experienceYears) && !Strings.IsBlank(f.age) && f.gender != "" && f.religion != ""
      && f.languages == []
    ensures r.Some? ==> r.value in {ExperienceRequired, AgeRequired, GenderRequired, ReligionRequired, LanguageRequired}
  {
    if Strings.Trim(f.experienceYears) == "" then Some(ExperienceRequired)
    else if Strings.Trim(f.age) == "" then Some(AgeRequired)
    else if f.gender == "" then Some(GenderRequired)
    else if f.religion == "" then Some(ReligionRequired)
    else if |f.languages| == 0 then Some(LanguageRequired)
    else None
  }

  /** The first check of `handleSubmit` that fails, in source order. */
  function FirstFailure(f: Form): (r: Option<Rejection>)
    ensures r.None? <==> Acceptable(f)
    ensures r == Some(FullNameRequired) <==> Strings.IsBlank(f.fullName)
    ensures r == Some(PhoneRequired) <==> !Strings.IsBlank(f.fullName) && Strings.IsBlank(f.phone)
    ensures r == Some(ServiceRequired) <==>
      !Strings.IsBlank(f.fullName) && !Strings.IsBlank(f.phone) && f.selectedServices == []
    ensures r == Some(ExperienceRequired) <==>
      !Strings.IsBlank(f.fullName) && !Strings.IsBlank(f.phone) && f.selectedServices != []
      && Strings.IsBlank(f.experienceYears)
    ensures r == Some(AgeRequired) <==>
      !Strings.IsBlank(f.fullName) && !Strings.IsBlank(f.phone) && f.selectedServices != []
      && !Strings.IsBlank(f.experienceYears) && Strings.IsBlank(f.age)
    ensures r == Some(GenderRequired) <==>
      !Strings.IsBlank(f.fullName) && !Strings.IsBlank(f.phone) && f.selectedServices != []
      && !Strings.IsBlank(f.experienceYears) && !Strings.IsBlank(f.age) && f.gender == ""
    ensures r == Some(ReligionRequired) <==>
      !Strings.IsBlank(f.fullName) && !Strings.IsBlank(f.phone) && f.selectedServices != []
      && !Strings.IsBlank(f.experienceYears) && !Strings.IsBlank(f.age) && f.gender != "" && f.religion == ""
    ensures r == Some(LanguageRequired) <==> Acceptable(f.(languages := ["_"])) && f.languages == []
    ensures r.Some? && r.value != FullNameRequired ==> !Strings.IsBlank(f.fullName)
    ensures r == Some(GenderRequired) ==> f.gender == "" && !Strings.IsBlank(f.age)
    ensures r == Some(ReligionRequired) ==> f.religion == "" && f.gender != ""
  {
    if IdentityFailure(f).Some? then IdentityFailure(f) else DetailFailure(f)
  }

  /** `workerData`. A number `parseInt` cannot read (`NaN`) is `None`;
      coordinates are absent without a pin. */
  datatype WorkerData = WorkerData(
    fullName: string,
    phone: string,
    serviceTypes: seq<string>,
    pinAddress: string,
    latitude: Option<real>,
    longitude: Option<real>,
    experienceYears: Option<int>,
    age: Option<int>,
    gender: string,
    religion: string,
    languages: seq<string>,
    availability: string,
    skills: Option<string>,
    bio: Option<string>)

  /** `s.trim() || null`. */
  function TrimOrNull(s: string): (r: Option<string>)
    ensures r.None? <==> Strings.IsBlank(s)
    ensures r.Some? ==> r.value == Strings.Trim(s) && r.value != ""
  {
    var t := Strings.Trim(s);
    if t == "" then None else Some(t)
  }

  function WorkerPayload(f: Form): (r: WorkerData)
    ensures r.fullName == Strings.Trim(f.fullName) && r.phone == Strings.Trim(f.phone)
    ensures r.serviceTypes == f.selectedServices && r.languages == f.languages
    ensures r.latitude.Some? <==> f.pinLocation.Some?
    ensures r.longitude.Some? <==> f.pinLocation.Some?
    ensures r.experienceYears == Strings.ParseIntAuto(f.experienceYears) && r.age == Strings.ParseIntAuto(f.age)
    ensures r.skills.None? <==> Strings.IsBlank(f.skills)
    ensures r.bio.None? <==> Strings.IsBlank(f.bio)
    ensures r.gender == f.gender && r.religion == f.religion && r.availability == f.availability
    ensures r.pinAddress == f.pinAddress
    ensures f.pinLocation.Some? ==>
      r.latitude == Some(f.pinLocation.value.0) && r.longitude == Some(f.pinLocation.value.1)
    ensures r.skills.Some? ==> r.skills.value == Strings.Trim(f.skills) && r.skills.value != ""
    ensures r.bio.Some? ==> r.bio.value == Strings.Trim(f.bio) && r.bio.value != ""
  {
    WorkerData(Strings.Trim(f.fullName), Strings.Trim(f.phone), f.selectedServices, f.pinAddress,
      if f.pinLocation.Some? then Some(f.pinLocation.value.0) else None,
      if f.pinLocation.Some? then Some(f.pinLocation.value.1) else None,
      Strings.ParseIntAuto(f.experienceYears), Strings.ParseIntAuto(f.age),
      f.gender, f.religion, f.languages, f.availability, TrimOrNull(f.skills), TrimOrNull(f.bio))
  }

  datatype Submission = Refused(message: string) | Accepted(data: WorkerData)

  /** `handleSubmit` up to the simulated save. */
  function HandleSubmit(f: Form): (r: Submission)
    ensures r.Accepted? <==> Acceptable(f)
    ensures r.Refused? ==> FirstFailure(f).Some? && r.message == Message(FirstFailure(f).value)
    ensures r.Accepted? ==> r.data.fullName != "" && r.data.phone != "" && r.data.serviceTypes != [] && r.data.languages != []
    ensures r.Accepted? ==> r.data == WorkerPayload(f)
  {
    match FirstFailure(f)
    case Some(rejection) => Refused(Message(rejection))
    case None => Accepted(WorkerPayload(f))
  }

  /** Every check is a presence check: an experience `parseInt` cannot read
      still passes, and the payload then carries `NaN`. */
  lemma UnreadableExperiencePasses(f: Form)
    requires Acceptable(f) && f.experienceYears == "x"
    ensures HandleSubmit(f).Accepted? && HandleSubmit(f).data.experienceYears.None?
  {
    Strings.ParseIntAutoNonNumeric(f.experienceYears);
  }

  /** One reverse-geocoding result; absent parts are `None`. */
  datatype Place = Place(name: Option<string>, street: Option<string>, district: Option<string>, city: Option<string>)

  /** The text of an optional part; an absent part is falsy like `""`. */
  function Part(p: Option<string>): string {
    p.GetOr("")
  }

  /** `reverseGeocode`: the non-empty name, street, district and city of the
      first result joined with `", "`; `fallback` (the coordinates printed
      with four decimals) when there is no result or no such part. */
  function GeocodedAddress(results: seq<Place>, fallback: string): (r: string)
    ensures results == [] ==> r == fallback
    ensures results != [] ==>
      var a := results[0];
      var joined := Strings.Join(Strings.NonEmpty([Part(a.name), Part(a.street), Part(a.district), Part(a.city)]), ", ");
      r == if joined != "" then joined else fallback
    ensures (results != [] && Part(results[0].name) == "" && Part(results[0].street) == ""
             && Part(results[0].district) == "" && Part(results[0].city) == "") ==> r == fallback
  {
    if results == [] then fallback
    else
      var a := results[0];
      var parts := [Part(a.name), Part(a.street), Part(a.district), Part(a.city)];
      Strings.JoinNonEmptyEmpty(parts, ", ");
      var joined := Strings.Join(Strings.NonEmpty(parts), ", ");
      if joined != "" then joined else fallback
  }

  /** The screen's state. */
  class WorkerForm {
    var fullName: string
    var phone: string
    var selectedServices: seq<string>
    var pinLocation: Option<(real, real)>
    var pinAddress: string
    var experienceYears: string
    var age: string
    var gender: string
    var religion: string
    var languages: seq<string>
    var availability: string
    var skills: string
    var bio: string

    function Snapshot(): Form
      reads this
    {
      Form(fullName, phone, selectedServices, pinLocation, pinAddress, experienceYears, age,
           gender, religion, languages, availability, skills, bio)
    }

    constructor()
      ensures Snapshot() == InitialForm
    {
      fullName, phone, selectedServices, pinLocation, pinAddress := "", "", [], None, "";
      experienceYears, age, gender, religion, languages := "", "", "", "", [];
      availability, skills, bio := "full_time", "", "";
    }

    /** `toggleLanguage`: only the language list changes. */
    method ToggleLanguage(languageName: string)
      modifies this
      ensures Snapshot() == old(Snapshot()).(languages := ListOps.Toggle(old(languages), languageName))
      ensures languageName in languages <==> languageName !in old(languages)
    {
      if languageName in languages {
        languages := ListOps.Remove(languages, languageName);
      } else {
        languages := languages + [languageName];
      }
    }

    /** `toggleService`: only the service selection changes. */
    method ToggleService(serviceId: string)
      modifies this
      ensures Snapshot() == old(Snapshot()).(selectedServices := ListOps.Toggle(old(selectedServices), serviceId))
      ensures serviceId in selectedServices <==> serviceId !in old(selectedServices)
    {
      if serviceId in selectedServices {
        selectedServices := ListOps.Remove(selectedServices, serviceId);
      } else {
        selectedServices := selectedServices + [serviceId];
      }
    }

    /** The gender buttons store the option lowercased. */
    method ChooseGender(option: string)
      modifies this
      ensures Snapshot() == old(Snapshot()).(gender := Strings.ToLower(option))
    {
      gender := Strings.ToLower(option);
    }

    /** `handleMapPress`: the pin and its geocoded address are set together. */
    method DropPin(latitude: real, longitude: real, results: seq<Place>, fallback: string)
      modifies this
      ensures Snapshot() == old(Snapshot()).(pinLocation := Some((latitude, longitude)),
                                             pinAddress := GeocodedAddress(results, fallback))
    {
      pinLocation := Some((latitude, longitude));
      pinAddress := GeocodedAddress(results, fallback);
    }

    /** "Add Another": all thirteen fields go back to their first values. */
    method AddAnother()
      modifies this
      ensures Snapshot() == InitialForm
    {
      ClearIdentity();
      ClearDetails();
    }

    /** The first half of "Add Another": name, phone, services and the pin. */
    method ClearIdentity()
      modifies this
      ensures fullName == "" && phone == "" && selectedServices == [] && pinLocation == None && pinAddress == ""
      ensures experienceYears == old(experienceYears) && age == old(age) && gender == old(gender)
      ensures religion == old(religion) && languages == old(languages) && availability == old(availability)
      ensures skills == old(skills) && bio == old(bio)
    {
      fullName, phone, selectedServices, pinLocation, pinAddress := "", "", [], None, "";
    }

    /** The second half of "Add Another": the personal details. */
    method ClearDetails()
      modifies this
      ensures experienceYears == "" && age == "" && gender == "" && religion == "" && languages == []
      ensures availability == "full_time" && skills == "" && bio == ""
      ensures fullName == old(fullName) && phone == old(phone) && selectedServices == old(selectedServices)
      ensures pinLocation == old(pinLocation) && pinAddress == old(pinAddress)
    {
      experienceYears, age, gender, religion, languages := "", "", "", "", [];
      availability, skills, bio := "full_time", "", "";
    }
  }

  /** After "Add Another" the next submission stops at the first check. */
  lemma ResetFormIsRefused()
    ensures HandleSubmit(InitialForm) == Refused("Full name is required")
  {
    assert Strings.IsBlank(InitialForm.fullName);
  }
}
