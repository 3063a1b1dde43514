/**
 * `app/profile/add-service-offering.tsx`: the screen that creates a service
 * listing, or edits one when the route carries an id. It covers the
 * service-type selection, the request each mode sends, the message shown
 * for the response, and how a loaded listing's service types are turned
 * into ids. The app context it reads `serviceTypes` from does not provide
 * that field, so the list is optional here and reading it when it is
 * missing throws (`None`).
 */
module AddServiceOffering {
  import opened Wrappers
  import opened Js
  import Strings
  import ListOps

  /** `isEditMode = !!id`. */
  predicate IsEditMode(id: Option<string>) {
    id.Some? && id.value != ""
  }

  /** The body of both requests; only an update carries a status. The rate
      is the text `parseFloat` reads. */
  datatype ListingBody = ListingBody(
    serviceTypes: seq<string>,
    workType: string,
    monthlyRate: Option<string>,
    description: Option<string>,
    status: Option<string>)

  datatype Request = Put(id: string, body: ListingBody) | Post(body: ListingBody)

  datatype Submission = Refused(message: string) | Send(request: Request)

  /** `handleAddService` up to the request. */
  function HandleAddService(id: Option<string>, serviceTypes: seq<string>, workType: string,
                            monthlyRate: string, description: string): (r: Submission)
    ensures r.Refused? <==> serviceTypes == []
    ensures r.Refused? ==> r.message == "Please select at least one service type"
    ensures r.Send? ==> (r.request.Put? <==> IsEditMode(id))
    ensures r.Send? && r.request.Put? ==> r.request.id == id.value && r.request.body.status == Some("active")
    ensures r.Send? && r.request.Post? ==> r.request.body.status.None?
    ensures r.Send? ==>
      r.request.body.serviceTypes == serviceTypes && r.request.body.workType == workType
      && (r.request.body.monthlyRate.None? <==> monthlyRate == "")
      && (r.request.body.description.None? <==> description == "")
    ensures r.Send? && monthlyRate != "" ==> r.request.body.monthlyRate == Some(monthlyRate)
    ensures r.Send? && description != "" ==> r.request.body.description == Some(description)
  {
    if |serviceTypes| == 0 then Refused("Please select at least one service type")
    else
      var rate := if monthlyRate != "" then Some(monthlyRate) else None;
      var text := if description != "" then Some(description) else None;
      if IsEditMode(id) then Send(Put(id.value, ListingBody(serviceTypes, workType, rate, text, Some("active"))))
      else Send(Post(ListingBody(serviceTypes, workType, rate, text, None)))
  }

  /** The text of a failed response: its `message`, else its `error`, else
      the default of the mode. */
  function FailureText(editMode: bool, message: Value, error: Value): (r: Value)
    ensures Truthy(message) ==> r == message
    ensures !Truthy(message) && Truthy(error) ==> r == error
    ensures !Truthy(message) && !Truthy(error) ==>
      r == Str(if editMode then "Failed to update service offering" else "Failed to add service offering")
  {
    Or(message, Or(error, Str(if editMode then "Failed to update service offering" else "Failed to add service offering")))
  }

  /** `toggleServiceType`. */
  function ToggleServiceType(selected: seq<string>, serviceId: string): (r: seq<string>)
    ensures serviceId in r <==> serviceId !in selected
    ensures forall s :: s != serviceId ==> (s in r <==> s in selected)
  {
    ListOps.Toggle(selected, serviceId)
  }

  /** A known service type. */
  datatype ServiceType = ServiceType(id: Value, slug: Value, name: Value)

  /** `serviceTypes.find(t => t.slug === key || t.name === key)`: the first
      type whose slug or name is the key. */
  function FindType(types: seq<ServiceType>, key: Value): (r: Option<ServiceType>)
    ensures r.Some? ==> r.value in types && (r.value.slug == key || r.value.name == key)
    ensures r.None? <==> forall k :: 0 <= k < |types| ==> types[k].slug != key && types[k].name != key
  {
    if types == [] then None
    else if types[0].slug == key || types[0].name == key then Some(types[0])
    else
      var r := FindType(types[1..], key);
      assert forall k :: 1 <= k < |types| ==> types[k] == types[1..][k - 1];
      r
  }

  /** The test `find` applies to each type. */
  predicate Matches(t: ServiceType, key: Value) {
    t.slug == key || t.name == key
  }

  /** No type before index `k` matches. */
  predicate NoMatchBefore(types: seq<ServiceType>, key: Value, k: int)
    requires 0 <= k <= |types|
  {
    forall j :: 0 <= j < k ==> !Matches(types[j], key)
  }

  /** `find` returns the first match: the type found sits at an index
      before which no type matches. */
  lemma {:induction false} FindTypeFirst(types: seq<ServiceType>, key: Value)
    requires FindType(types, key).Some?
    ensures exists k :: 0 <= k < |types| && types[k] == FindType(types, key).value && NoMatchBefore(types, key, k)
  {
    if Matches(types[0], key) {
      assert types[0] == FindType(types, key).value && NoMatchBefore(types, key, 0);
    } else {
      var rest := types[1..];
      assert FindType(types, key) == FindType(rest, key);
      FindTypeFirst(rest, key);
      var k :| 0 <= k < |rest| && rest[k] == FindType(rest, key).value && NoMatchBefore(rest, key, k);
      forall j | 0 <= j < k + 1 ensures !Matches(types[j], key) {
        if j > 0 {
          assert types[j] == rest[j - 1];
        }
      }
      assert types[k + 1] == FindType(types, key).value && NoMatchBefore(types, key, k + 1);
    }
  }

  /** `found ? found.id.toString() : key`, where the lookup itself throws
      when the context has no list and `toString` throws on a missing id. */
  function Resolve(types: Option<seq<ServiceType>>, key: Value): (r: Option<Value>)
    ensures types.None? ==> r.None?
    ensures types.Some? && FindType(types.value, key).None? ==> r == Some(key)
    ensures types.Some? && FindType(types.value, key).Some? && !Nullish(FindType(types.value, key).value.id) ==>
      r == Some(Str(Text(FindType(types.value, key).value.id)))
  {
    if types.None? then None
    else
      match FindType(types.value, key)
      case None => Some(key)
      case Some(t) => if Nullish(t.id) then None else Some(Str(Text(t.id)))
  }

  /** Whether `Number(v)` is a number rather than `NaN`. `numeric` answers it
      for a string; other values are converted as JavaScript does (an array
      through its joined text, a plain object to `NaN`). */
  predicate IsNumber(v: Value, numeric: string -> bool) {
    match v
    case Undefined => false
    case Null => true
    case Bool(_) => true
    case Num(_) => true
    case Str(s) => numeric(s)
    case Arr(_) => numeric(Text(v))
    case Obj(_) => false
  }

  /** One entry of `listing.service_types` turned into an id; `None` where
      the code throws (`null.id`, or a slug looked up in a missing list). */
  function NormaliseId(st: Value, types: Option<seq<ServiceType>>, numeric: string -> bool): (r: Option<Value>)
    ensures st.Null? ==> r.None?
    ensures st.Obj? && Truthy(Prop(st, "id")) ==> r == Some(Str(Text(Prop(st, "id"))))
    ensures st.Num? ==> r == Some(Str(Strings.IntToString(st.n)))
    ensures st.Str? && numeric(st.s) ==> r == Some(st)
    ensures st.Str? && !numeric(st.s) ==> r == Resolve(types, st)
    ensures st.Undefined? ==> r == Some(Undefined)
  {
    if st.Null? then None
    else if (st.Obj? || st.Arr?) && Truthy(Prop(st, "id")) then Some(Str(Text(Prop(st, "id"))))
    else if IsNumber(st, numeric) then Some(Str(Text(st)))
    else if st.Str? then Resolve(types, st)
    else Some(st)
  }

  /** `listing.service_types.map(...)`; `None` when any entry throws. */
  function NormaliseIds(items: seq<Value>, types: Option<seq<ServiceType>>, numeric: string -> bool): (r: Option<seq<Value>>)
    ensures r.Some? ==>
      |r.value| == |items| && forall k :: 0 <= k < |items| ==> NormaliseId(items[k], types, numeric) == Some(r.value[k])
    ensures r.None? <==> exists k :: 0 <= k < |items| && NormaliseId(items[k], types, numeric).None?
  {
    if items == [] then Some([])
    else
      assert forall k :: 0 <= k < |items| - 1 ==> items[1..][k] == items[k + 1];
      match NormaliseId(items[0], types, numeric)
      case None => None
      case Some(first) =>
        match NormaliseIds(items[1..], types, numeric)
        case None => None
        case Some(rest) => Some([first] + rest)
  }

  /** Without the context's list, ids given as objects or numbers still
      load, while a single slug makes the whole load fail. */
  lemma SlugNeedsServiceTypes(slug: string, id: int, numeric: string -> bool)
    requires !numeric(slug)
    ensures NormaliseIds([Num(id), Str(slug)], None, numeric).None?
    ensures NormaliseIds([Num(id)], None, numeric) == Some([Str(Strings.IntToString(id))])
  {
    assert NormaliseId(Str(slug), None, numeric).None?;
    assert [Num(id), Str(slug)][1] == Str(slug);
    var r := NormaliseIds([Num(id)], None, numeric);
    assert NormaliseId([Num(id)][0], None, numeric) == Some(Str(Strings.IntToString(id)));
    assert r.Some?;
    assert r.value == [r.value[0]];
  }

  /** What a loaded listing sets. `None` in a field leaves that field as it
      was; `serviceTypes` is `None` also when neither form of service type is
      present. */
  datatype Loaded = Loaded(
    serviceTypes: Option<seq<Value>>,
    workType: Option<Value>,
    monthlyRate: Option<string>,
    description: Option<Value>)

  /** `response.data.listing || response.data.service_listing || response.data`. */
  function Listing(data: Value): (r: Value)
    ensures Truthy(data) ==> Truthy(r)
    ensures !Nullish(data) && Truthy(Prop(data, "listing")) ==> r == Prop(data, "listing")
    ensures !Nullish(data) && !Truthy(Prop(data, "listing")) && Truthy(Prop(data, "service_listing")) ==>
      r == Prop(data, "service_listing")
    ensures !Truthy(Prop(data, "listing")) && !Truthy(Prop(data, "service_listing")) ==> r == data
  {
    if Nullish(data) then data
    else Or(Prop(data, "listing"), Or(Prop(data, "service_listing"), data))
  }

  /** `loadServiceListing` after a successful response with truthy data;
      `None` is the "Failed to load service listing" alert. */
  function LoadServiceListing(data: Value, types: Option<seq<ServiceType>>, numeric: string -> bool): (r: Option<Loaded>)
    requires Truthy(data)
    ensures var listing := Listing(data);
      var sts := Prop(listing, "service_types");
      IsArray(sts) && |sts.items| > 0 ==>
        (r.None? <==> NormaliseIds(sts.items, types, numeric).None?)
        && (r.Some? ==> r.value.serviceTypes == NormaliseIds(sts.items, types, numeric))
    ensures var listing := Listing(data);
      var sts := Prop(listing, "service_types");
      !(IsArray(sts) && |sts.items| > 0) && Truthy(Prop(listing, "service_type")) && types.None? ==> r.None?
    ensures var listing := Listing(data);
      var sts := Prop(listing, "service_types");
      var one := Prop(listing, "service_type");
      !(IsArray(sts) && |sts.items| > 0) && Truthy(one) ==>
        (r.None? <==> Resolve(types, one).None?)
        && (r.Some? ==> r.value.serviceTypes == Some([Resolve(types, one).value]))
    ensures var listing := Listing(data);
      var sts := Prop(listing, "service_types");
      !(IsArray(sts) && |sts.items| > 0) && !Truthy(Prop(listing, "service_type")) ==>
        r.Some? && r.value.serviceTypes.None?
    ensures r.Some? ==>
      var listing := Listing(data);
      (r.value.workType.Some? ==> r.value.workType.value == Prop(listing, "work_type"))
      && (r.value.monthlyRate.Some? ==> r.value.monthlyRate.value == Text(Prop(listing, "monthly_rate")))
      && (r.value.description.Some? ==> r.value.description.value == Prop(listing, "description"))
    ensures r.Some? ==>
      var listing := Listing(data);
      (r.value.workType.Some? <==> Truthy(Prop(listing, "work_type")))
      && (r.value.monthlyRate.Some? <==> Truthy(Prop(listing, "monthly_rate")))
      && (r.value.description.Some? <==> Truthy(Prop(listing, "description")))
  {
    var listing := Listing(data);
    var sts := Prop(listing, "service_types");
    var chosen :=
      if IsArray(sts) && |sts.items| > 0 then
        match NormaliseIds(sts.items, types, numeric)
        case None => None
        case Some(ids) => Some(Some(ids))
      else if Truthy(Prop(listing, "service_type")) then
        match Resolve(types, Prop(listing, "service_type"))
        case None => None
        case Some(id) => Some(Some([id]))
      else Some(None);
    match chosen
    case None => None
    case Some(ids) =>
      var workType := Prop(listing, "work_type");
      var rate := Prop(listing, "monthly_rate");
      var description := Prop(listing, "description");
      Some(Loaded(ids,
        if Truthy(workType) then Some(workType) else None,
        if Truthy(rate) then Some(Text(rate)) else None,
        if Truthy(description) then Some(description) else None))
  }
}
