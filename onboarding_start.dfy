/**
 * `app/onboarding/start.tsx`: the first onboarding screen, where a user gives
 * a name, a city and a pinned address. `handleContinue` checks them in order,
 * merges them into the signed-in user, and then redirects by user type; a
 * customer is also marked as having completed onboarding. The pin's
 * coordinates are carried as opaque values (floating point is not
 * modelled); the 100 ms delay before the redirect is not modelled either,
 * beyond which user record the delayed code reads.
 */
module OnboardingStart {
  import opened Wrappers
  import opened Js
  import Strings
  import ListOps
  import Auth

  /** The screen's form fields at one moment. `cityId` is whatever the city
      picker or the stored user supplied. */
  datatype Form = Form(name: string, cityId: Value, address: string, pin: Option<(Value, Value)>)

  datatype Refusal = NameRequired | CityRequired | PinRequired

  /** The toast each refusal shows. */
  function Alert(r: Refusal): string {
    match r
    case NameRequired => "Please enter your name"
    case CityRequired => "Please select your city"
    case PinRequired => "Please pin your location"
  }

  /** The checks of `handleContinue`, in source order. */
  function FirstRefusal(f: Form): (r: Option<Refusal>)
    ensures r == Some(NameRequired) <==> Strings.IsBlank(f.name)
    ensures r == Some(CityRequired) <==> !Strings.IsBlank(f.name) && !Truthy(f.cityId)
    ensures r == Some(PinRequired) <==> !Strings.IsBlank(f.name) && Truthy(f.cityId) && f.address == ""
    ensures r.None? <==> !Strings.IsBlank(f.name) && Truthy(f.cityId) && f.address != ""
  {
    if Strings.Trim(f.name) == "" then Some(NameRequired)
    else if !Truthy(f.cityId) then Some(CityRequired)
    else if f.address == "" then Some(PinRequired)
    else None
  }

  /** The "Next" button's `disabled` expression. */
  predicate ButtonDisabled(f: Form, isLoading: bool) {
    Strings.Trim(f.name) == "" || !Truthy(f.cityId) || f.address == "" || isLoading
  }

  /** The button is disabled exactly while a save is in flight or a check
      would refuse. */
  lemma ButtonMirrorsChecks(f: Form, isLoading: bool)
    ensures ButtonDisabled(f, isLoading) <==> isLoading || FirstRefusal(f).Some?
  {
  }

  /** `profileUpdateData`: the trimmed name, the city, the address and the
      pin's coordinates (`undefined` without a pin). */
  function ProfileUpdate(f: Form): (r: Auth.Record)
    ensures r.Keys == {"name", "city_id", "pin_address", "pin_latitude", "pin_longitude"}
    ensures r["name"] == Str(Strings.Trim(f.name)) && r["city_id"] == f.cityId && r["pin_address"] == Str(f.address)
    ensures f.pin.None? ==> r["pin_latitude"] == Undefined && r["pin_longitude"] == Undefined
    ensures f.pin.Some? ==> r["pin_latitude"] == f.pin.value.0 && r["pin_longitude"] == f.pin.value.1
  {
    map["name" := Str(Strings.Trim(f.name)), "city_id" := f.cityId, "pin_address" := Str(f.address),
        "pin_latitude" := if f.pin.Some? then f.pin.value.0 else Undefined,
        "pin_longitude" := if f.pin.Some? then f.pin.value.1 else Undefined]
  }

  datatype Target = HelperProfile | BusinessProfile | Tabs

  /** The redirect, chosen by `user?.userType`. */
  function Redirect(user: Option<Auth.Record>): (r: Target)
    ensures r == HelperProfile <==> user.Some? && FieldOf(user.value, "userType") == Str("helper")
    ensures r == BusinessProfile <==> user.Some? && FieldOf(user.value, "userType") == Str("business")
  {
    if user.Some? && FieldOf(user.value, "userType") == Str("helper") then HelperProfile
    else if user.Some? && FieldOf(user.value, "userType") == Str("business") then BusinessProfile
    else Tabs
  }

  const Completed: Auth.Record := map["onboardingStatus" := Str("completed")]

  /** `{...u, onboardingStatus: 'completed'}`. */
  function WithStatus(u: Auth.Record): (r: Auth.Record)
    ensures FieldOf(r, "onboardingStatus") == Str("completed")
    ensures forall k :: k != "onboardingStatus" ==> FieldOf(r, k) == FieldOf(u, k)
  {
    u + Completed
  }

  /** The stored user after a passing `handleContinue`, as the source has
      it: the delayed `updateUser` is the one captured before the first save,
      so for a customer it merges the status into the user as it was before
      the profile update, and that record replaces the updated one. */
  function AfterContinueAsWritten(user: Option<Auth.Record>, f: Form): (r: Option<Auth.Record>)
    ensures r.None? <==> user.None?
    ensures r.Some? && Redirect(user) == Tabs ==>
      FieldOf(r.value, "onboardingStatus") == Str("completed")
      && forall k :: k != "onboardingStatus" ==> FieldOf(r.value, k) == FieldOf(user.value, k)
  {
    match user
    case None => None
    case Some(u) => if Redirect(user) == Tabs then Some(WithStatus(u)) else Some(Updated(u, f))
  }

  /** A customer with no stored name who passes the checks ends with no
      name at all, and with none of the city and pin fields the user lacked. */
  lemma ContinueAsWrittenLosesName(user: Auth.Record, f: Form)
    requires FieldOf(user, "userType") == Str("user")
    requires "name" !in user && "pin_address" !in user
    requires FirstRefusal(f).None?
    ensures Strings.Trim(f.name) != ""
    ensures FieldOf(AfterContinueAsWritten(Some(user), f).value, "name") == Undefined
    ensures FieldOf(AfterContinueAsWritten(Some(user), f).value, "pin_address") == Undefined
  {
  }

  /** The stored user after a passing `handleContinue` when the status is
      merged into the user the profile update produced. */
  function AfterContinue(user: Option<Auth.Record>, f: Form): (r: Option<Auth.Record>)
    ensures r.None? <==> user.None?
    ensures r.Some? && Redirect(user) == Tabs ==> FieldOf(r.value, "onboardingStatus") == Str("completed")
    ensures r.Some? && Redirect(user) != Tabs ==>
      FieldOf(r.value, "onboardingStatus") == FieldOf(user.value, "onboardingStatus")
    ensures r.Some? ==> forall k :: k != "onboardingStatus" ==> FieldOf(r.value, k) == FieldOf(Updated(user.value, f), k)
  {
    match user
    case None => None
    case Some(u) => if Redirect(user) == Tabs then Some(WithStatus(Updated(u, f))) else Some(Updated(u, f))
  }

  /** `{...user, ...profileUpdateData}`. */
  function Updated(u: Auth.Record, f: Form): (r: Auth.Record)
    ensures forall k :: FieldOf(r, k) == if k in ProfileUpdate(f) then ProfileUpdate(f)[k] else FieldOf(u, k)
    ensures FieldOf(r, "onboardingStatus") == FieldOf(u, "onboardingStatus")
  {
    assert "onboardingStatus" !in ProfileUpdate(f);
    u + ProfileUpdate(f)
  }

  /** Both versions agree for helpers and businesses; for a customer the
      intended one keeps the entered name, which the written one loses
      whenever the stored name differs. */
  lemma ContinueKeepsProfile(user: Auth.Record, f: Form)
    ensures Redirect(Some(user)) != Tabs ==> AfterContinue(Some(user), f) == AfterContinueAsWritten(Some(user), f)
    ensures FieldOf(AfterContinue(Some(user), f).value, "name") == Str(Strings.Trim(f.name))
    ensures Redirect(Some(user)) == Tabs && FieldOf(user, "name") != Str(Strings.Trim(f.name)) ==>
      FieldOf(AfterContinueAsWritten(Some(user), f).value, "name")
      != FieldOf(AfterContinue(Some(user), f).value, "name")
  {
    assert "name" in ProfileUpdate(f);
  }

  /** What `updateUser` can throw, for the `catch` branch. `text` is what
      `toString()` gives for an object. */
  datatype Thrown = ErrorInstance(message: string) | ThrownString(s: string) | ThrownObject(fields: Value, text: string) | ThrownOther

  const DefaultError := "Failed to update profile. Please try again."

  /** The error text of the `catch` branch: the message of an `Error`, a
      thrown string itself, an object's `message || error || toString()`, and
      the default for anything else (`null` included). */
  function ErrorText(e: Thrown): (r: Value)
    ensures e.ErrorInstance? ==> r == Str(e.message)
    ensures e.ThrownString? ==> r == Str(e.s)
    ensures e.ThrownOther? ==> r == Str(DefaultError)
    ensures e.ThrownObject? && Nullish(e.fields) ==> r == Str(DefaultError)
    ensures e.ThrownObject? && !Nullish(e.fields) ==>
      (Truthy(Prop(e.fields, "message")) ==> r == Prop(e.fields, "message"))
      && (!Truthy(Prop(e.fields, "message")) && Truthy(Prop(e.fields, "error")) ==> r == Prop(e.fields, "error"))
      && (!Truthy(Prop(e.fields, "message")) && !Truthy(Prop(e.fields, "error")) ==> r == Str(e.text))
  {
    match e
    case ErrorInstance(m) => Str(m)
    case ThrownString(s) => Str(s)
    case ThrownObject(v, text) =>
      if Nullish(v) then Str(DefaultError)
      else Or(Prop(v, "message"), Or(Prop(v, "error"), Str(text)))
    case ThrownOther => Str(DefaultError)
  }

  /** One city of the picker. */
  datatype City = City(id: Value, name: string)

  predicate Matches(c: City, query: string) {
    Strings.Contains(Strings.ToLower(c.name), Strings.ToLower(query))
  }

  /** `filteredCities`: the cities whose name contains the query, ignoring
      ASCII case, in their order. */
  function FilteredCities(cities: seq<City>, query: string): (r: seq<City>)
    ensures forall c :: c in r <==> c in cities && Matches(c, query)
    ensures ListOps.IsSubsequence(r, cities)
  {
    ListOps.FilterSubsequence(cities, (c: City) => Matches(c, query));
    ListOps.Filter(cities, (c: City) => Matches(c, query))
  }

  /** An empty query keeps every city. */
  lemma EmptyQueryKeepsAll(cities: seq<City>)
    ensures FilteredCities(cities, "") == cities
  {
    forall k | 0 <= k < |cities| ensures Matches(cities[k], "") {
      Strings.ContainsAt(Strings.ToLower(cities[k].name), Strings.ToLower(""), 0);
    }
    ListOps.FilterKeepsAll(cities, (c: City) => Matches(c, ""));
  }

  /** The screen's state. */
  class StartScreen {
    var name: string
    var cityId: Value
    var address: string
    var pin: Option<(Value, Value)>
    var isLoading: bool
    var errorMessage: Option<string>

    function Snapshot(): Form
      reads this
    {
      Form(name, cityId, address, pin)
    }

    constructor()
      ensures Snapshot() == Form("", Null, "", None) && !isLoading && errorMessage.None?
    {
      name, cityId, address, pin := "", Null, "", None;
      isLoading, errorMessage := false, None;
    }

    /** The effect that fills the form from the stored user: each truthy
        field is taken (a name or address as its text), the pin only when
        both coordinates are truthy; the rest stays. */
    method Prefill(user: Option<Auth.Record>)
      modifies this
      ensures var n := if user.Some? then FieldOf(user.value, "name") else Undefined;
        name == if Truthy(n) then Text(n) else old(name)
      ensures var c := if user.Some? then FieldOf(user.value, "city_id") else Undefined;
        cityId == if Truthy(c) then c else old(cityId)
      ensures var a := if user.Some? then FieldOf(user.value, "pin_address") else Undefined;
        address == if Truthy(a) then Text(a) else old(address)
      ensures var lat := if user.Some? then FieldOf(user.value, "pin_latitude") else Undefined;
        var lon := if user.Some? then FieldOf(user.value, "pin_longitude") else Undefined;
        pin == if Truthy(lat) && Truthy(lon) then Some((lat, lon)) else old(pin)
      ensures isLoading == old(isLoading) && errorMessage == old(errorMessage)
    {
      if user.Some? {
        var u := user.value;
        if Truthy(FieldOf(u, "name")) {
          name := Text(FieldOf(u, "name"));
        }
        if Truthy(FieldOf(u, "city_id")) {
          cityId := FieldOf(u, "city_id");
        }
        if Truthy(FieldOf(u, "pin_address")) {
          address := Text(FieldOf(u, "pin_address"));
        }
        if Truthy(FieldOf(u, "pin_latitude")) && Truthy(FieldOf(u, "pin_longitude")) {
          pin := Some((FieldOf(u, "pin_latitude"), FieldOf(u, "pin_longitude")));
        }
      }
    }

    /** `handleContinue`. A refusal changes nothing. Otherwise the profile is
        merged into the session's user and the redirect is chosen by the
        type the user had. For a customer, the delayed callback then calls
        the `updateUser` of the render that started the save, which merges
        the status into the user as it was before the profile update
        (`AfterContinueAsWritten`). The saving flag is down at the end. */
    method HandleContinue(session: Auth.Session) returns (refusal: Option<Refusal>, target: Target)
      modifies this, session
      ensures refusal == FirstRefusal(old(Snapshot()))
      ensures refusal.Some? ==>
        session.user == old(session.user) && Snapshot() == old(Snapshot())
        && isLoading == old(isLoading) && errorMessage == old(errorMessage)
      ensures refusal.None? ==>
        session.user == AfterContinueAsWritten(old(session.user), old(Snapshot()))
        && target == Redirect(old(session.user))
        && Snapshot() == old(Snapshot()) && !isLoading && errorMessage.None?
    {
      var f := Snapshot();
      refusal := FirstRefusal(f);
      target := Tabs;
      if refusal.Some? {
        return;
      }
      errorMessage := None;
      isLoading := true;
      var before := session.user;
      target := Redirect(before);
      session.UpdateUser(ProfileUpdate(f));
      if target == Tabs {
        session.UpdateUserCaptured(before, Completed);
      }
      isLoading := false;
    }
  }
}
