/**
 * `app/job/create.tsx`: the screen that posts a job. `handleCreate` runs an
 * ordered chain of presence checks, shows the first failure as the form
 * error, and otherwise hands a job record to the app context's `addJob`.
 * The context as it stands has no `addJob`, so that call is an optional
 * function here: `None` is the missing member, whose call throws. Service
 * types come from a response body whose entries are strings or objects.
 */
module JobCreate {
  import opened Wrappers
  import opened Js
  import Strings
  import ListOps
  import Auth

  /** The fields `handleCreate` reads. The pin is a pair of coordinates; the
      salary is the text `parseFloat` reads. */
  datatype Form = Form(
    serviceType: string,
    workType: string,
    estimatedSalary: string,
    userName: string,
    phone: string,
    specialRequirements: string,
    address: string,
    pinLocation: Option<(real, real)>)

  datatype FormError =
    | ServiceTypeMissing
    | WorkTypeMissing
    | LocationMissing
    | NameMissing
    | PhoneMissing

  /** The form error each failed check shows. */
  function Message(e: FormError): (r: string)
    ensures r != ""
  {
    match e
    case ServiceTypeMissing => "Please select a service type"
    case WorkTypeMissing => "Please select a work type"
    case LocationMissing => "Please select a location on map"
    case NameMissing => "Please enter your name"
    case PhoneMissing => "Please enter your phone number"
  }

  /** Every check of `handleCreate` passes. Name and phone are checked
      trimmed, the other three as they are. */
  predicate Complete(f: Form) {
    f.serviceType != "" && f.workType != "" && f.address != ""
    && !Strings.IsBlank(f.userName) && !Strings.IsBlank(f.phone)
  }

  /** The error the else-if chain settles on: the first check that fails. */
  function FirstError(f: Form): (r: Option<FormError>)
    ensures r.None? <==> Complete(f)
    ensures r == Some(ServiceTypeMissing) <==> f.serviceType == ""
    ensures r == Some(WorkTypeMissing) <==> f.serviceType != "" && f.workType == ""
    ensures r == Some(LocationMissing) <==> f.serviceType != "" && f.workType != "" && f.address == ""
    ensures r == Some(NameMissing) <==>
      f.serviceType != "" && f.workType != "" && f.address != "" && Strings.IsBlank(f.userName)
    ensures r == Some(PhoneMissing) <==>
      f.serviceType != "" && f.workType != "" && f.address != "" && !Strings.IsBlank(f.userName)
      && Strings.IsBlank(f.phone)
  {
    if f.serviceType == "" then Some(ServiceTypeMissing)
    else if f.workType == "" then Some(WorkTypeMissing)
    else if f.address == "" then Some(LocationMissing)
    else if Strings.Trim(f.userName) == "" then Some(NameMissing)
    else if Strings.Trim(f.phone) == "" then Some(PhoneMissing)
    else None
  }

  /** The record passed to `addJob`: name and phone untrimmed, coordinates
      absent without a pin, the budget absent when no salary was typed. */
  datatype JobData = JobData(
    userId: Value,
    userName: string,
    serviceName: string,
    description: string,
    location: string,
    latitude: Option<real>,
    longitude: Option<real>,
    address: string,
    budget: Option<string>,
    workType: string,
    phone: string)

  /** `user?.id || 'guest'`. */
  function UserId(user: Option<Auth.Record>): (r: Value)
    ensures Truthy(r)
    ensures user.Some? && Truthy(FieldOf(user.value, "id")) ==> r == FieldOf(user.value, "id")
    ensures user.None? || !Truthy(FieldOf(user.value, "id")) ==> r == Str("guest")
  {
    if user.Some? then Or(FieldOf(user.value, "id"), Str("guest")) else Str("guest")
  }

  function Job(f: Form, user: Option<Auth.Record>): (r: JobData)
    ensures r.userId == UserId(user)
    ensures r.serviceName == f.serviceType && r.workType == f.workType
    ensures r.location == f.address && r.address == f.address
    ensures r.userName == f.userName && r.phone == f.phone && r.description == f.specialRequirements
    ensures r.latitude.Some? <==> f.pinLocation.Some?
    ensures r.longitude.Some? <==> f.pinLocation.Some?
    ensures r.budget.None? <==> f.estimatedSalary == ""
    ensures f.pinLocation.Some? ==>
      r.latitude == Some(f.pinLocation.value.0) && r.longitude == Some(f.pinLocation.value.1)
    ensures r.budget.Some? ==> r.budget.value == f.estimatedSalary
  {
    JobData(UserId(user), f.userName, f.serviceType, f.specialRequirements, f.address,
      if f.pinLocation.Some? then Some(f.pinLocation.value.0) else None,
      if f.pinLocation.Some? then Some(f.pinLocation.value.1) else None,
      f.address, if f.estimatedSalary != "" then Some(f.estimatedSalary) else None,
      f.workType, f.phone)
  }

  /** How an attempt ends: refused by a check (no call), or the job was
      passed on and the call resolved (`Created`) or threw (`Failed`). */
  datatype Outcome = Invalid(error: FormError) | Created(job: JobData) | Failed(job: JobData)

  /** The toast each submitted attempt shows. */
  function Toast(o: Outcome): (r: Option<string>)
    ensures r.None? <==> o.Invalid?
  {
    match o
    case Invalid(_) => None
    case Created(_) => Some("Job created successfully")
    case Failed(_) => Some("Failed to create job")
  }

  class JobScreen {
    var formError: Option<string>
    var isSubmitting: bool

    constructor()
      ensures formError.None? && !isSubmitting
    {
      formError, isSubmitting := None, false;
    }

    /** `handleCreate`. `addJob` is the context's member (`None` when it has
        none); `Some(resolves)` says whether the call for a job resolves. The
        error shown is the first failed check's, or none once the checks
        pass; `addJob` sees the job only then; the submitting flag is down
        again at the end. */
    method HandleCreate(f: Form, user: Option<Auth.Record>, addJob: Option<JobData -> bool>)
      returns (outcome: Outcome)
      modifies this
      ensures FirstError(f).Some? ==> outcome == Invalid(FirstError(f).value)
      ensures FirstError(f).None? && addJob.Some? && addJob.value(Job(f, user)) ==> outcome == Created(Job(f, user))
      ensures FirstError(f).None? && !(addJob.Some? && addJob.value(Job(f, user))) ==> outcome == Failed(Job(f, user))
      ensures formError == if outcome.Invalid? then Some(Message(outcome.error)) else None
      ensures outcome.Invalid? ==> isSubmitting == old(isSubmitting)
      ensures !outcome.Invalid? ==> !isSubmitting
    {
      formError := None;
      var error := FirstError(f);
      if error.Some? {
        formError := Some(Message(error.value));
        return Invalid(error.value);
      }
      isSubmitting := true;
      var job := Job(f, user);
      if addJob.Some? && addJob.value(job) {
        outcome := Created(job);
      } else {
        outcome := Failed(job);
      }
      isSubmitting := false;
    }
  }

  /** One entry of the service-type list: a string as it is, otherwise
      `item.name || item.slug || item.label || ''`; `None` where reading a
      field of `null`/`undefined` throws. */
  function ServiceTypeName(item: Value): (r: Option<Value>)
    ensures r.None? <==> Nullish(item)
    ensures item.Str? ==> r == Some(item)
    ensures r.Some? && !item.Str? && Truthy(Prop(item, "name")) ==> r.value == Prop(item, "name")
    ensures r.Some? && !item.Str? && !Truthy(Prop(item, "name")) && Truthy(Prop(item, "slug")) ==>
      r.value == Prop(item, "slug")
    ensures r.Some? && !item.Str? && !Truthy(Prop(item, "name")) && !Truthy(Prop(item, "slug")) ==>
      r.value == if Truthy(Prop(item, "label")) then Prop(item, "label") else Str("")
  {
    if item.Str? then Some(item)
    else if Nullish(item) then None
    else Some(Or(Prop(item, "name"), Or(Prop(item, "slug"), Or(Prop(item, "label"), Str("")))))
  }

  /** `data.map(...)`; `None` when an entry throws. */
  function ServiceTypeNames(items: seq<Value>): (r: Option<seq<Value>>)
    ensures r.None? <==> exists k :: 0 <= k < |items| && Nullish(items[k])
    ensures r.Some? ==> |r.value| == |items| && forall k :: 0 <= k < |items| ==> ServiceTypeName(items[k]) == Some(r.value[k])
  {
    if items == [] then Some([])
    else
      assert forall k :: 0 <= k < |items| - 1 ==> items[1..][k] == items[k + 1];
      match ServiceTypeName(items[0])
      case None => None
      case Some(first) =>
        match ServiceTypeNames(items[1..])
        case None => None
        case Some(rest) => Some([first] + rest)
  }

  /** `fetchServiceTypes` after a response: the new list, or `None` when the
      list is left as it was (no data, no array, or an entry that throws). */
  function FetchedServiceTypes(data: Value): (r: Option<seq<Value>>)
    ensures r.Some? ==> forall k :: 0 <= k < |r.value| ==> Truthy(r.value[k])
    ensures !Truthy(data) ==> r.None?
  {
    if !Truthy(data) then None
    else
      var list := if IsArray(data) then data else Prop(data, "data");
      if !IsArray(list) then None
      else
        match ServiceTypeNames(list.items)
        case None => None
        case Some(names) => Some(ListOps.Filter(names, (v: Value) => Truthy(v)))
  }

  /** A body that is a list of strings gives its non-empty strings, in
      order. */
  lemma StringListKept(items: seq<Value>)
    requires forall k :: 0 <= k < |items| ==> items[k].Str?
    ensures items != [] ==> FetchedServiceTypes(Arr(items)) == Some(ListOps.Filter(items, (v: Value) => Truthy(v)))
  {
    if items != [] {
      var data := Arr(items);
      assert Truthy(data) && IsArray(data);
      NamesOfStrings(items);
      assert ServiceTypeNames(data.items) == Some(items);
    }
  }

  /** Strings are their own names. */
  lemma NamesOfStrings(items: seq<Value>)
    requires forall k :: 0 <= k < |items| ==> items[k].Str?
    ensures ServiceTypeNames(items) == Some(items)
  {
    assert !exists k :: 0 <= k < |items| && Nullish(items[k]);
    var r := ServiceTypeNames(items);
    assert r.value == items;
  }

  /** An object entry with no name, slug or label is dropped, and so is an
      empty string; a named one stays, in order. */
  lemma UnnamedEntriesDropped(named: string)
    requires named != ""
    ensures FetchedServiceTypes(Arr([Obj(map[]), Str(""), Obj(map["slug" := Str(named)])]))
      == Some([Str(named)])
  {
    var items := [Obj(map[]), Str(""), Obj(map["slug" := Str(named)])];
    var names := ServiceTypeNames(items);
    assert ServiceTypeName(items[0]) == Some(Str(""));
    assert ServiceTypeName(items[2]) == Some(Str(named));
    assert ServiceTypeName(items[1]) == Some(Str(""));
    assert names.Some?;
    assert names.value == [Str(""), Str(""), Str(named)];
    var keep := (v: Value) => Truthy(v);
    var mapped := [Str(""), Str(""), Str(named)];
    assert mapped[1..] == [Str(""), Str(named)] && mapped[1..][1..] == [Str(named)];
    assert ListOps.Filter(mapped[1..][1..], keep) == [Str(named)];
    assert ListOps.Filter(mapped[1..], keep) == ListOps.Filter(mapped[1..][1..], keep);
    assert ListOps.Filter(mapped, keep) == ListOps.Filter(mapped[1..], keep);
  }
}
