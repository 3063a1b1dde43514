/**
 * `app/requests/create.tsx`: the screen that opens a service request. Four
 * ordered form checks, then a check of the context's user, then one call of
 * `addServiceRequest`. It reads `user` from the app context, which provides
 * no such member, so in the app as it stands that user is `undefined`.
 */
module RequestsCreate {
  import opened Wrappers
  import opened Js
  import Strings
  import AppState

  datatype Form = Form(serviceName: string, description: string, category: string, location: string, budget: string)

  datatype Refusal = NameRequired | CategoryRequired | LocationRequired | DescriptionRequired | UserMissing

  /** The alert of each refusal. */
  function Alert(r: Refusal): string {
    match r
    case NameRequired => "Please enter service name"
    case CategoryRequired => "Please select a category"
    case LocationRequired => "Please select a location"
    case DescriptionRequired => "Please enter description"
    case UserMissing => "User information not found"
  }

  /** The "Create Request" button is enabled. */
  predicate ButtonEnabled(f: Form) {
    !(Strings.Trim(f.serviceName) == "" || f.category == "" || f.location == "" || Strings.Trim(f.description) == "")
  }

  /** `user?.id` and `user?.name` are both truthy. */
  predicate HasUser(user: Value) {
    Truthy(Field(user, "id")) && Truthy(Field(user, "name"))
  }

  datatype Outcome = Refused(refusal: Refusal) | Submitted(data: AppState.RequestData)

  /** `handleCreate` up to the call of `addServiceRequest`; the user's id and
      name are carried as their text. */
  function HandleCreate(f: Form, user: Value): (r: Outcome)
    ensures r == Refused(NameRequired) <==> Strings.IsBlank(f.serviceName)
    ensures r == Refused(CategoryRequired) <==> !Strings.IsBlank(f.serviceName) && f.category == ""
    ensures r == Refused(LocationRequired) <==> !Strings.IsBlank(f.serviceName) && f.category != "" && f.location == ""
    ensures r == Refused(DescriptionRequired) <==>
      !Strings.IsBlank(f.serviceName) && f.category != "" && f.location != "" && Strings.IsBlank(f.description)
    ensures r == Refused(UserMissing) <==> ButtonEnabled(f) && !HasUser(user)
    ensures r.Submitted? <==> ButtonEnabled(f) && HasUser(user)
    ensures r.Submitted? ==>
      r.data.userId == Text(Field(user, "id")) && r.data.userName == Text(Field(user, "name"))
      && r.data.serviceName == f.serviceName && r.data.description == f.description
      && r.data.location == f.location
      && (r.data.budget.None? <==> f.budget == "")
      && (r.data.budget.Some? ==> r.data.budget.value == f.budget)
  {
    if Strings.Trim(f.serviceName) == "" then Refused(NameRequired)
    else if f.category == "" then Refused(CategoryRequired)
    else if f.location == "" then Refused(LocationRequired)
    else if Strings.Trim(f.description) == "" then Refused(DescriptionRequired)
    else if !HasUser(user) then Refused(UserMissing)
    else
      Submitted(AppState.RequestData(Text(Field(user, "id")), Text(Field(user, "name")), f.serviceName,
        f.description, f.location, if f.budget != "" then Some(f.budget) else None))
  }

  /** The button is enabled exactly when none of the four form checks would
      refuse. */
  lemma ButtonMirrorsChecks(f: Form, user: Value)
    ensures ButtonEnabled(f) <==> HandleCreate(f, user).Submitted? || HandleCreate(f, user) == Refused(UserMissing)
  {
  }

  /** With the app context as it stands (no `user`), no request is ever
      added: a form the button lets through is refused for the user. */
  lemma MissingUserNeverSubmits(f: Form)
    ensures !HandleCreate(f, Undefined).Submitted?
    ensures ButtonEnabled(f) ==> HandleCreate(f, Undefined) == Refused(UserMissing)
  {
  }

  /** `handleCreate` against the app store: a request that gets through is
      added by `addServiceRequest` as one open request at the end, with the
      clock's id and time as parameters; a refusal leaves the store alone. */
  method Create(f: Form, user: Value, store: AppState.Store, id: string, createdAt: string) returns (r: Outcome)
    modifies store
    ensures r == HandleCreate(f, user)
    ensures r.Submitted? ==>
      store.serviceRequests == old(store.serviceRequests) + [AppState.NewRequest(r.data, id, createdAt)]
    ensures r.Submitted? ==>
      |store.serviceRequests| == |old(store.serviceRequests)| + 1
      && store.serviceRequests[|old(store.serviceRequests)|].status == AppState.Open
      && store.serviceRequests[|old(store.serviceRequests)|].serviceName == f.serviceName
    ensures !r.Submitted? ==> store.serviceRequests == old(store.serviceRequests)
  {
    r := HandleCreate(f, user);
    if r.Submitted? {
      store.AddServiceRequest(r.data, id, createdAt);
    }
  }
}
