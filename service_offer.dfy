/**
 * `app/onboarding/helper-steps/step1-service-offer.tsx`: the first helper
 * onboarding step. Its handlers hand a new record to the parent's
 * `onChange`; its search box owns the query, the results and the dropdown.
 */
module ServiceOffer {
  import opened Wrappers
  import opened Js
  import Strings
  import ListOps

  /** A location as the search returns it: `id` is a number or a string,
      `area` is optional. */
  datatype Location = Location(id: Value, name: Value, area: Value)

  datatype ServiceOfferData = ServiceOfferData(
    serviceTypes: seq<string>,
    locations: seq<Location>,
    workType: string,
    monthlyRate: string,
    description: string)

  /** No two selected locations share an id. */
  predicate DistinctIds(locs: seq<Location>) {
    forall i, j :: 0 <= i < j < |locs| ==> locs[i].id != locs[j].id
  }

  predicate HasId(locs: seq<Location>, id: Value) {
    exists i :: 0 <= i < |locs| && locs[i].id == id
  }

  /** `toggleServiceType`: only `serviceTypes` changes. */
  function ToggleServiceType(data: ServiceOfferData, serviceId: string): (r: ServiceOfferData)
    ensures r == data.(serviceTypes := r.serviceTypes)
    ensures serviceId in r.serviceTypes <==> serviceId !in data.serviceTypes
    ensures forall s :: s != serviceId ==> (s in r.serviceTypes <==> s in data.serviceTypes)
  {
    data.(serviceTypes := ListOps.Toggle(data.serviceTypes, serviceId))
  }

  /** Toggling the same service type twice restores a list it was not in. */
  lemma ToggleServiceTypeTwice(data: ServiceOfferData, serviceId: string)
    requires serviceId !in data.serviceTypes
    ensures ToggleServiceType(ToggleServiceType(data, serviceId), serviceId) == data
  {
    ListOps.ToggleTwiceAbsent(data.serviceTypes, serviceId);
  }

  /** The record `handleLocationSelect` hands on: the location is appended
      unless one with the same id is already selected. */
  function SelectLocation(data: ServiceOfferData, location: Location): (r: ServiceOfferData)
    ensures r == data.(locations := r.locations)
    ensures HasId(data.locations, location.id) ==> r == data
    ensures !HasId(data.locations, location.id) ==> r.locations == data.locations + [location]
    ensures DistinctIds(data.locations) ==> DistinctIds(r.locations)
  {
    if HasId(data.locations, location.id) then data
    else data.(locations := data.locations + [location])
  }

  /** `handleLocationRemove`: every location with that id goes, the others
      keep their order. */
  function RemoveLocation(data: ServiceOfferData, id: Value): (r: ServiceOfferData)
    ensures r == data.(locations := r.locations)
    ensures !HasId(r.locations, id)
    ensures forall l :: l in r.locations <==> l in data.locations && l.id != id
  {
    data.(locations := ListOps.Filter(data.locations, (l: Location) => l.id != id))
  }

  /** Selecting a location and removing it again gives back a list that
      never had its id. */
  lemma SelectThenRemove(data: ServiceOfferData, location: Location)
    requires !HasId(data.locations, location.id)
    ensures RemoveLocation(SelectLocation(data, location), location.id).locations ==
      ListOps.Filter(data.locations, (l: Location) => l.id != location.id)
  {
    ListOps.FilterAppendRejected(data.locations, location, (l: Location) => l.id != location.id);
  }

  /** `handleNext` calls `onNext` only with a service type, a location and a
      work type chosen. */
  predicate CanAdvance(data: ServiceOfferData)
    ensures CanAdvance(data) <==> data.serviceTypes != [] && data.locations != [] && data.workType != ""
  {
    if |data.serviceTypes| == 0 then false
    else if |data.locations| == 0 then false
    else data.workType != ""
  }

  /** Picking a new service type and any location, with a work type, is
      enough to move on, whatever the record held before. */
  lemma ChoicesUnlockNext(data: ServiceOfferData, serviceId: string, location: Location, workType: string)
    requires serviceId !in data.serviceTypes && workType != ""
    ensures CanAdvance(SelectLocation(ToggleServiceType(data, serviceId), location).(workType := workType))
  {
    var d := ToggleServiceType(data, serviceId);
    assert serviceId in d.serviceTypes;
    var e := SelectLocation(d, location);
    assert e.serviceTypes == d.serviceTypes;
    if HasId(d.locations, location.id) {
      var i :| 0 <= i < |d.locations| && d.locations[i].id == location.id;
    } else {
      assert |e.locations| == |d.locations| + 1;
    }
  }

  /** Removing the only selected location blocks the step again. */
  lemma RemovingLastLocationBlocks(data: ServiceOfferData)
    requires |data.locations| == 1
    ensures !CanAdvance(RemoveLocation(data, data.locations[0].id))
  {
  }

  /** What the debounced search does with the text in the box. */
  datatype SearchStep = Fetch(query: string) | ClearResults | KeepResults

  function SearchStepFor(text: string): (r: SearchStep)
    ensures r.Fetch? <==> |Strings.Trim(text)| >= 2
    ensures r.Fetch? ==> r.query == Strings.Trim(text)
    ensures r == ClearResults <==> Strings.IsBlank(text)
  {
    var q := Strings.Trim(text);
    if |q| >= 2 then Fetch(q) else if |q| == 0 then ClearResults else KeepResults
  }

  /** `loc.id || loc.location_id || loc.name`, `loc.name || loc.location_name || ''`
      and `loc.area || loc.area_name`; `None` when the entry is `null` or
      `undefined`, where reading a field throws. */
  function MapLocation(loc: Value): (r: Option<Location>)
    ensures r.None? <==> Nullish(loc)
    ensures r.Some? && Truthy(Prop(loc, "id")) ==> r.value.id == Prop(loc, "id")
    ensures r.Some? && !Truthy(Prop(loc, "name")) && !Truthy(Prop(loc, "location_name")) ==> r.value.name == Str("")
  {
    if Nullish(loc) then None
    else Some(Location(
      Or(Prop(loc, "id"), Or(Prop(loc, "location_id"), Prop(loc, "name"))),
      Or(Prop(loc, "name"), Or(Prop(loc, "location_name"), Str(""))),
      Or(Prop(loc, "area"), Prop(loc, "area_name"))))
  }

  /** The mapped list, or `None` when an entry throws. */
  function MapLocations(items: seq<Value>): (r: Option<seq<Location>>)
    ensures r.None? <==> exists i :: 0 <= i < |items| && Nullish(items[i])
    ensures r.Some? ==> |r.value| == |items| && forall i :: 0 <= i < |items| ==> Some(r.value[i]) == MapLocation(items[i])
  {
    if items == [] then Some([])
    else if Nullish(items[0]) then None
    else
      assert forall j :: 0 <= j < |items| - 1 ==> items[1..][j] == items[j + 1];
      match MapLocations(items[1..])
      case None => None
      case Some(rest) => Some([MapLocation(items[0]).value] + rest)
  }

  /** Where `searchLocations` finds the list in a successful body:
      `locations.data`, `locations`, the body itself, `data`, else nothing. */
  function LocationItems(data: Value): (r: seq<Value>)
    requires Truthy(data)
    ensures var l := Prop(data, "locations");
      Truthy(l) ==>
        (IsArray(Prop(l, "data")) ==> r == Prop(l, "data").items)
        && (!IsArray(Prop(l, "data")) && IsArray(l) ==> r == l.items)
        && (!IsArray(Prop(l, "data")) && !IsArray(l) ==> r == [])
    ensures var l := Prop(data, "locations");
      !Truthy(l) ==>
        (IsArray(data) ==> r == data.items)
        && (!IsArray(data) && IsArray(Prop(data, "data")) ==> r == Prop(data, "data").items)
        && (!IsArray(data) && !IsArray(Prop(data, "data")) ==> r == [])
  {
    var locations := Prop(data, "locations");
    if Truthy(locations) then
      if IsArray(Prop(locations, "data")) then Prop(locations, "data").items
      else if IsArray(locations) then locations.items
      else []
    else if IsArray(data) then data.items
    else if Truthy(Prop(data, "data")) then
      if IsArray(Prop(data, "data")) then Prop(data, "data").items else []
    else []
  }

  /** Each envelope the search accepts gives back the list it wraps. */
  lemma LocationEnvelopesUnwrapped(xs: seq<Value>)
    ensures LocationItems(Arr(xs)) == xs
    ensures LocationItems(Obj(map["locations" := Arr(xs)])) == xs
    ensures LocationItems(Obj(map["locations" := Obj(map["data" := Arr(xs)])])) == xs
    ensures LocationItems(Obj(map["data" := Arr(xs)])) == xs
  {
  }

  /** The search box's own state. */
  class LocationSearch {
    var text: string
    var results: seq<Location>
    var dropdownOpen: bool

    constructor()
      ensures text == "" && results == [] && !dropdownOpen
    {
      text := "";
      results := [];
      dropdownOpen := false;
    }

    method Type(t: string)
      modifies this
      ensures text == t && results == old(results) && dropdownOpen == old(dropdownOpen)
    {
      text := t;
    }

    /** The debounce timer fires: a blank box clears the results; a query of
        two or more characters is returned for fetching and opens the
        dropdown; one character changes nothing. */
    method TimerFired() returns (fetch: Option<string>)
      modifies this
      ensures text == old(text)
      ensures fetch.Some? <==> SearchStepFor(old(text)).Fetch?
      ensures fetch.Some? ==> fetch.value == Strings.Trim(old(text)) && dropdownOpen && results == old(results)
      ensures SearchStepFor(old(text)) == ClearResults ==> results == [] && !dropdownOpen
      ensures SearchStepFor(old(text)) == KeepResults ==> results == old(results) && dropdownOpen == old(dropdownOpen)
    {
      fetch := None;
      var step := SearchStepFor(text);
      match step {
        case Fetch(q) =>
          dropdownOpen := true;
          fetch := Some(q);
        case ClearResults =>
          results := [];
          dropdownOpen := false;
        case KeepResults =>
      }
    }

    /** The response arrives: `success` and a truthy body give the mapped
        list (an entry that throws empties it); anything else empties it.
        The dropdown stays open only over a non-empty list. */
    method Received(success: bool, data: Value)
      modifies this
      ensures dropdownOpen <==> |results| > 0
      ensures !(success && Truthy(data)) ==> results == []
      ensures success && Truthy(data) && MapLocations(LocationItems(data)).Some? ==>
        results == MapLocations(LocationItems(data)).value
      ensures success && Truthy(data) && MapLocations(LocationItems(data)).None? ==> results == []
      ensures text == old(text)
    {
      if success && Truthy(data) {
        match MapLocations(LocationItems(data)) {
          case Some(mapped) =>
            results := mapped;
          case None =>
            results := [];
        }
      } else {
        results := [];
      }
      dropdownOpen := |results| > 0;
    }

    /** `handleLocationSelect`: the record to hand on; the box is emptied
        and the dropdown closed whether or not the location was new. */
    method Select(data: ServiceOfferData, location: Location) returns (r: ServiceOfferData)
      modifies this
      ensures r == SelectLocation(data, location)
      ensures text == "" && !dropdownOpen && results == old(results)
    {
      r := SelectLocation(data, location);
      text := "";
      dropdownOpen := false;
    }
  }
}
