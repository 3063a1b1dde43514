/**
 * `app/profile/service-offerings.tsx`: a helper's list of service offerings,
 * kept inside `user.profileData` and rewritten through `updateUser`, and the
 * form that adds one. Offering ids (`Date.now().toString()`) are passed in;
 * a price is kept as the text `parseFloat` reads.
 */
module ServiceOfferings {
  import opened Wrappers
  import opened Js
  import Strings
  import ListOps

  datatype PriceUnit = Hour | Day | Month

  datatype Offering = Offering(
    id: string,
    serviceName: string,
    description: Option<string>,
    price: Option<string>,
    priceUnit: PriceUnit,
    locations: seq<string>,
    category: string)

  /** `user.profileData`: its offerings (`None` when the field is absent) and
      every other field, which the screen spreads back unchanged. */
  datatype Profile = Profile(serviceOfferings: Option<seq<Offering>>, others: map<string, Value>)

  /** `profileData?.serviceOfferings || []`. */
  function Offerings(profile: Option<Profile>): (r: seq<Offering>)
    ensures profile.None? || profile.value.serviceOfferings.None? ==> r == []
    ensures profile.Some? && profile.value.serviceOfferings.Some? ==> r == profile.value.serviceOfferings.value
  {
    if profile.Some? && profile.value.serviceOfferings.Some? then profile.value.serviceOfferings.value else []
  }

  /** `{...profileData, serviceOfferings: offerings}`: spreading a missing
      profile gives no other fields. */
  function WithOfferings(profile: Option<Profile>, offerings: seq<Offering>): (r: Profile)
    ensures r.serviceOfferings == Some(offerings)
    ensures profile.Some? ==> r.others == profile.value.others
    ensures profile.None? ==> r.others == map[]
  {
    Profile(Some(offerings), if profile.Some? then profile.value.others else map[])
  }

  /** The profile written back by an add: the offering goes at the end. */
  function AfterAdd(profile: Option<Profile>, offering: Offering): (r: Profile)
    ensures r.serviceOfferings == Some(Offerings(profile) + [offering])
    ensures profile.Some? ==> r.others == profile.value.others
  {
    WithOfferings(profile, Offerings(profile) + [offering])
  }

  /** The profile written back by `handleDeleteService`. */
  function AfterDelete(profile: Option<Profile>, serviceId: string): (r: Profile)
    ensures r.serviceOfferings.Some?
    ensures forall o :: o in r.serviceOfferings.value <==> o in Offerings(profile) && o.id != serviceId
    ensures ListOps.IsSubsequence(r.serviceOfferings.value, Offerings(profile))
    ensures profile.Some? ==> r.others == profile.value.others
  {
    ListOps.FilterSubsequence(Offerings(profile), (o: Offering) => o.id != serviceId);
    WithOfferings(profile, ListOps.Filter(Offerings(profile), (o: Offering) => o.id != serviceId))
  }

  /** Deleting an offering just added under a fresh id gives back the list
      there was before. */
  lemma DeleteUndoesAdd(profile: Option<Profile>, offering: Offering)
    requires forall k :: 0 <= k < |Offerings(profile)| ==> Offerings(profile)[k].id != offering.id
    ensures AfterDelete(Some(AfterAdd(profile, offering)), offering.id).serviceOfferings == Some(Offerings(profile))
  {
    var keep := (o: Offering) => o.id != offering.id;
    ListOps.FilterAppendRejected(Offerings(profile), offering, keep);
    ListOps.FilterKeepsAll(Offerings(profile), keep);
  }

  /** The form's fields at one moment. */
  datatype Draft = Draft(
    serviceName: string,
    description: string,
    category: string,
    price: string,
    priceUnit: PriceUnit,
    selectedLocations: seq<string>)

  datatype AddOutcome = NameRequired | CategoryRequired | LocationRequired | Added

  function Alert(o: AddOutcome): string {
    match o
    case NameRequired => "Please enter service name"
    case CategoryRequired => "Please select a category"
    case LocationRequired => "Please select at least one location"
    case Added => "Service offering added successfully"
  }

  /** The checks of `handleAddService`, in source order. */
  function Check(d: Draft): (r: AddOutcome)
    ensures r == NameRequired <==> Strings.IsBlank(d.serviceName)
    ensures r == CategoryRequired <==> !Strings.IsBlank(d.serviceName) && d.category == ""
    ensures r == LocationRequired <==> !Strings.IsBlank(d.serviceName) && d.category != "" && d.selectedLocations == []
    ensures r == Added <==> !Strings.IsBlank(d.serviceName) && d.category != "" && d.selectedLocations != []
  {
    if Strings.Trim(d.serviceName) == "" then NameRequired
    else if d.category == "" then CategoryRequired
    else if |d.selectedLocations| == 0 then LocationRequired
    else Added
  }

  /** `newService`: the name as typed, a blank description left out, an
      empty price left out. */
  function NewOffering(d: Draft, id: string): (r: Offering)
    ensures r.id == id && r.serviceName == d.serviceName
    ensures r.description.None? <==> Strings.IsBlank(d.description)
    ensures r.description.Some? ==> r.description.value == Strings.Trim(d.description)
    ensures r.price.None? <==> d.price == ""
    ensures r.price.Some? ==> r.price.value == d.price
    ensures r.locations == d.selectedLocations && r.category == d.category && r.priceUnit == d.priceUnit
  {
    var description := Strings.Trim(d.description);
    Offering(id, d.serviceName, if description == "" then None else Some(description),
             if d.price != "" then Some(d.price) else None, d.priceUnit, d.selectedLocations, d.category)
  }

  /** The name is checked trimmed but stored untrimmed: any name that
      starts or ends with white space is kept with it. */
  lemma NameKeepsSpaces(d: Draft, id: string)
    requires d.serviceName != [] && (Strings.IsSpace(d.serviceName[0]) || Strings.IsSpace(d.serviceName[|d.serviceName| - 1]))
    ensures NewOffering(d, id).serviceName == d.serviceName != Strings.Trim(d.serviceName)
  {
  }

  class OfferingForm {
    var serviceName: string
    var description: string
    var category: string
    var price: string
    var priceUnit: PriceUnit
    var selectedLocations: seq<string>

    function Snapshot(): Draft
      reads this
    {
      Draft(serviceName, description, category, price, priceUnit, selectedLocations)
    }

    /** Empty fields, price per month. */
    constructor()
      ensures Snapshot() == Draft("", "", "", "", Month, [])
    {
      serviceName, description, category, price := "", "", "", "";
      priceUnit, selectedLocations := Month, [];
    }

    /** `toggleLocation`: only the location selection changes. */
    method ToggleLocation(location: string)
      modifies this
      ensures Snapshot() == old(Snapshot()).(selectedLocations := ListOps.Toggle(old(selectedLocations), location))
    {
      if location in selectedLocations {
        selectedLocations := ListOps.Remove(selectedLocations, location);
      } else {
        selectedLocations := selectedLocations + [location];
      }
    }

    /** `handleAddService`: a failed check changes nothing and writes no
        profile; otherwise the profile to write is returned and the form is
        reset, all but the price unit. */
    method HandleAddService(profile: Option<Profile>, id: string) returns (outcome: AddOutcome, written: Option<Profile>)
      modifies this
      ensures outcome == Check(old(Snapshot()))
      ensures outcome != Added ==> written.None? && Snapshot() == old(Snapshot())
      ensures outcome == Added ==>
        written == Some(AfterAdd(profile, NewOffering(old(Snapshot()), id)))
        && Snapshot() == Draft("", "", "", "", old(priceUnit), [])
    {
      var draft := Snapshot();
      outcome := Check(draft);
      if outcome != Added {
        return outcome, None;
      }
      written := Some(AfterAdd(profile, NewOffering(draft, id)));
      ResetForm();
    }

    /** The five setters run after an add; the price unit stays. */
    method ResetForm()
      modifies this
      ensures Snapshot() == Draft("", "", "", "", old(priceUnit), [])
    {
      serviceName := "";
      description := "";
      category := "";
      price := "";
      selectedLocations := [];
    }
  }
}
