/**
 * `app/onboarding/helper-steps/step3-complete-profile.tsx`: the last helper
 * onboarding step: language choice, the map pin and its geocoded address,
 * and the language list it loads.
 */
module CompleteProfile {
  import opened Wrappers
  import opened Js
  import Strings
  import ListOps

  /** Coordinates are reals here; only their truthiness and identity matter. */
  datatype CompleteProfileData = CompleteProfileData(
    experience: string,
    bio: string,
    age: string,
    gender: string,
    religion: string,
    languages: Option<seq<int>>,
    address: string,
    latitude: Option<real>,
    longitude: Option<real>)

  /** `toggleLanguage`: a missing list counts as empty; only `languages`
      changes. */
  function ToggleLanguage(data: CompleteProfileData, languageId: int): (r: CompleteProfileData)
    ensures r == data.(languages := r.languages) && r.languages.Some?
    ensures languageId in r.languages.value <==> languageId !in data.languages.GetOr([])
    ensures forall l :: l != languageId ==> (l in r.languages.value <==> l in data.languages.GetOr([]))
  {
    data.(languages := Some(ListOps.Toggle(data.languages.GetOr([]), languageId)))
  }

  /** One reverse-geocoding result; absent parts are `None`. */
  datatype GeoAddress = GeoAddress(street: Option<string>, district: Option<string>, city: Option<string>, region: Option<string>)

  function Part(p: Option<string>): string {
    p.GetOr("")
  }

  /** `[street, district, city, region].filter(Boolean).join(', ')`: the
      address is empty exactly when no part is present. */
  function FormattedAddress(a: GeoAddress): (r: string)
    ensures r == "" <==> Part(a.street) == "" && Part(a.district) == "" && Part(a.city) == "" && Part(a.region) == ""
  {
    var parts := [Part(a.street), Part(a.district), Part(a.city), Part(a.region)];
    Strings.JoinNonEmptyEmpty(parts, ", ");
    assert (forall k :: 0 <= k < |parts| ==> parts[k] == "") <==>
      parts[0] == "" && parts[1] == "" && parts[2] == "" && parts[3] == "";
    Strings.Join(Strings.NonEmpty(parts), ", ")
  }

  /** A single present part is the whole address, whichever it is. */
  lemma OnePartAlone(part: string)
    requires part != ""
    ensures FormattedAddress(GeoAddress(Some(part), None, None, None)) == part
    ensures FormattedAddress(GeoAddress(None, None, Some(part), None)) == part
    ensures FormattedAddress(GeoAddress(None, None, None, Some(part))) == part
  {
    assert Strings.NonEmpty([""]) == [] by { assert [""][1..] == []; }
    assert Strings.NonEmpty(["", ""]) == [] by { assert ["", ""][1..] == [""]; }
    assert Strings.NonEmpty(["", "", ""]) == [] by { assert ["", "", ""][1..] == ["", ""]; }
    assert Strings.NonEmpty([part]) == [part] by { assert [part][1..] == []; }
    assert Strings.NonEmpty([part, ""]) == [part] by { assert [part, ""][1..] == [""]; }
    assert Strings.NonEmpty(["", part, ""]) == [part] by { assert ["", part, ""][1..] == [part, ""]; }
    assert Strings.NonEmpty(["", "", part]) == [part] by { assert ["", "", part][1..] == ["", part]; }
    assert Strings.NonEmpty([part, "", "", ""]) == [part] by { assert [part, "", "", ""][1..] == ["", "", ""]; }
    assert Strings.NonEmpty(["", "", part, ""]) == [part] by { assert ["", "", part, ""][1..] == ["", part, ""]; }
    assert Strings.NonEmpty(["", "", "", part]) == [part] by { assert ["", "", "", part][1..] == ["", "", part]; }
  }

  /** All four parts present: they are joined in order, with a separator
      between each two. */
  lemma AllFourParts(street: string, district: string, city: string, region: string)
    requires street != "" && district != "" && city != "" && region != ""
    ensures FormattedAddress(GeoAddress(Some(street), Some(district), Some(city), Some(region)))
      == street + ", " + (district + ", " + (city + ", " + region))
  {
    var parts := [street, district, city, region];
    assert Strings.NonEmpty(parts) == parts;
    assert parts[1..] == [district, city, region];
    assert parts[1..][1..] == [city, region];
    Strings.JoinPair(city, region, ", ");
    assert Strings.Join([district, city, region], ", ") == district + ", " + Strings.Join([city, region], ", ");
    assert Strings.Join(parts, ", ") == street + ", " + Strings.Join([district, city, region], ", ");
  }

  /** Street and city only: they are joined with one separator. */
  lemma StreetAndCity(street: string, city: string)
    requires street != "" && city != ""
    ensures FormattedAddress(GeoAddress(Some(street), None, Some(city), None)) == street + ", " + city
  {
    var parts := [street, "", city, ""];
    assert Strings.NonEmpty(parts) == [street, city] by {
      assert Strings.NonEmpty([""]) == [] by { assert [""][1..] == []; }
      assert Strings.NonEmpty([city, ""]) == [city] by { assert [city, ""][1..] == [""]; }
      assert Strings.NonEmpty(["", city, ""]) == [city] by { assert ["", city, ""][1..] == [city, ""]; }
      assert parts[1..] == ["", city, ""];
    }
    Strings.JoinPair(street, city, ", ");
  }

  /** `handleMapConfirm`: with at least one geocoding result the address and
      both coordinates change together; otherwise nothing changes. */
  function MapConfirm(data: CompleteProfileData, latitude: real, longitude: real, results: seq<GeoAddress>): (r: CompleteProfileData)
    ensures results == [] ==> r == data
    ensures results != [] ==>
      r == data.(address := FormattedAddress(results[0]), latitude := Some(latitude), longitude := Some(longitude))
  {
    if |results| > 0 then
      data.(address := FormattedAddress(results[0]), latitude := Some(latitude), longitude := Some(longitude))
    else data
  }

  function TruthyCoordinate(c: Option<real>): bool {
    c.Some? && c.value != 0.0
  }

  datatype MapStart = Recenter(latitude: real, longitude: real) | RequestCurrentLocation

  /** `openMap`: re-centre on the stored pin only when both coordinates are
      truthy (a coordinate of exactly 0 counts as missing). */
  function OpenMap(data: CompleteProfileData): (r: MapStart)
    ensures r.Recenter? <==> TruthyCoordinate(data.latitude) && TruthyCoordinate(data.longitude)
    ensures r.Recenter? ==> Some(r.latitude) == data.latitude && Some(r.longitude) == data.longitude
  {
    if !TruthyCoordinate(data.latitude) || !TruthyCoordinate(data.longitude) then RequestCurrentLocation
    else Recenter(data.latitude.value, data.longitude.value)
  }

  /** A pin on the equator is treated as no pin. */
  lemma EquatorPinIsMissing(data: CompleteProfileData)
    requires data.latitude == Some(0.0) && TruthyCoordinate(data.longitude)
    ensures OpenMap(data) == RequestCurrentLocation
  {
  }

  datatype Language = Language(id: Value, name: Value)

  /** `{ id: l.id || l.name, name: l.name || l }`; `None` where reading a
      field throws. */
  function FormatLanguage(l: Value): (r: Option<Language>)
    ensures r.None? <==> Nullish(l)
    ensures l.Str? ==> r == Some(Language(Undefined, l))
    ensures r.Some? && Truthy(Prop(l, "name")) ==> r.value.name == Prop(l, "name") && (Truthy(Prop(l, "id")) || r.value.id == Prop(l, "name"))
  {
    if Nullish(l) then None
    else Some(Language(Or(Prop(l, "id"), Prop(l, "name")), Or(Prop(l, "name"), l)))
  }

  /** Where the list sits in a successful body. A value that is not an
      array here makes `.map` throw. */
  function LanguageItems(data: Value): (r: Value)
    requires Truthy(data)
    ensures IsArray(data) ==> r == data
    ensures !IsArray(data) && IsArray(Prop(data, "data")) ==> r == Prop(data, "data")
    ensures var l := Prop(data, "languages");
      !IsArray(data) && !IsArray(Prop(data, "data")) && Truthy(l) ==>
        (IsArray(l) ==> r == l) && (!IsArray(l) ==> r == Or(Prop(l, "data"), Arr([])))
    ensures !IsArray(data) && !IsArray(Prop(data, "data")) && !Truthy(Prop(data, "languages")) ==> r == Arr([])
  {
    if IsArray(data) then data
    else if Truthy(Prop(data, "data")) && IsArray(Prop(data, "data")) then Prop(data, "data")
    else if Truthy(Prop(data, "languages")) then
      var languages := Prop(data, "languages");
      if IsArray(languages) then languages else Or(Prop(languages, "data"), Arr([]))
    else Arr([])
  }

  /** Each envelope the fetch accepts gives back the list it wraps. */
  lemma LanguageEnvelopesUnwrapped(xs: seq<Value>)
    ensures LanguageItems(Arr(xs)) == Arr(xs)
    ensures LanguageItems(Obj(map["data" := Arr(xs)])) == Arr(xs)
    ensures LanguageItems(Obj(map["languages" := Arr(xs)])) == Arr(xs)
    ensures LanguageItems(Obj(map["languages" := Obj(map["data" := Arr(xs)])])) == Arr(xs)
  {
  }

  function FormatAll(items: seq<Value>): (r: Option<seq<Language>>)
    ensures r.Some? ==> |r.value| == |items| && forall i :: 0 <= i < |items| ==> FormatLanguage(items[i]) == Some(r.value[i])
    ensures r.None? ==> exists i :: 0 <= i < |items| && Nullish(items[i])
  {
    if items == [] then Some([])
    else if Nullish(items[0]) then None
    else
      assert forall j :: 0 <= j < |items| - 1 ==> items[1..][j] == items[j + 1];
      match FormatAll(items[1..])
      case None => None
      case Some(rest) => Some([FormatLanguage(items[0]).value] + rest)
  }

  /** `fetchLanguages`: the new list, or `None` when the list is kept
      (a failed response, or something in the body throws). */
  function LoadedLanguages(success: bool, data: Value): (r: Option<seq<Language>>)
    ensures !(success && Truthy(data)) ==> r.None?
    ensures success && IsArray(data) && (forall i :: 0 <= i < |data.items| ==> !Nullish(data.items[i])) ==>
      r.Some? && |r.value| == |data.items|
  {
    if !(success && Truthy(data)) then None
    else
      var items := LanguageItems(data);
      if items.Arr? then FormatAll(items.items) else None
  }
}
