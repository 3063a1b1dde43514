/**
 * `app/business/dashboard.tsx`: a business's dashboard. It fetches the same
 * worker list as the workers screen, counts it, and shows the first five
 * workers, each with a detail line written as one optional-chained
 * expression (where the workers screen pushes onto an array). Workers are
 * JSON values; a render that throws is `None`.
 */
module BusinessDashboard {
  import opened Wrappers
  import opened Js
  import Strings
  import WorkersIndex

  /** The two counters: the workers fetched, and bookings, which are never
      counted. */
  datatype Stats = Stats(totalWorkers: nat, bookings: nat)

  /** The dashboard's state. */
  class Dashboard {
    var workers: seq<Value>
    var isLoading: bool

    constructor()
      ensures workers == [] && isLoading
    {
      workers := [];
      isLoading := true;
    }

    /** `stats`. */
    function Counters(): (r: Stats)
      reads this
      ensures r.totalWorkers == |workers| && r.bookings == 0
    {
      Stats(|workers|, 0)
    }

    /** The cards: `workers.slice(0, 5)`. */
    function Shown(): (r: seq<Value>)
      reads this
      ensures |r| <= 5 && |r| <= |workers| && r == workers[..|r|]
      ensures |workers| <= 5 ==> r == workers
      ensures |workers| >= 5 ==> |r| == 5
    {
      var n := if |workers| <= 5 then |workers| else 5;
      workers[..n]
    }

    /** `fetchWorkers`, which picks the list exactly as the workers screen
        does. `hasEndpoint` false is the endpoint lookup throwing, which the
        catch swallows. */
    method FetchWorkers(hasEndpoint: bool, success: bool, data: Value)
      modifies this
      ensures workers == (if hasEndpoint && success && Truthy(data) then WorkersIndex.ExtractWorkers(data) else old(workers))
      ensures !isLoading
    {
      isLoading := true;
      if hasEndpoint && success && Truthy(data) {
        workers := WorkersIndex.ExtractWorkers(data);
      }
      isLoading := false;
    }
  }

  /** Without the endpoint the dashboard shows no workers and counts none. */
  method FreshDashboardWithoutEndpoint(success: bool, data: Value) returns (stats: Stats, shown: seq<Value>)
    ensures stats == Stats(0, 0) && shown == []
  {
    var d := new Dashboard();
    d.FetchWorkers(false, success, data);
    stats := d.Counters();
    shown := d.Shown();
  }

  /** `v[0]` for a value that is not `null` or `undefined`. */
  function Element0(v: Value): (r: Value)
    ensures v.Arr? && |v.items| > 0 ==> r == v.items[0]
    ensures v.Arr? && |v.items| == 0 ==> r == Undefined
  {
    match v
    case Arr(items) => if |items| > 0 then items[0] else Undefined
    case Str(s) => if |s| > 0 then Str([s[0]]) else Undefined
    case Obj(fields) => Prop(v, "0")
    case _ => Undefined
  }

  /** `worker.service_listings?.[0]?.service_types?.slice(0, 2).map(s =>
      s.name).join(', ')`, with `""` where the chain stops at `null` or
      `undefined`; a `service_types` that is not an array throws. */
  function ServicesPart(worker: Value): (r: Option<string>)
    ensures Nullish(worker) ==> r.None?
    ensures !Nullish(worker) && Prop(worker, "service_listings").Arr? && |Prop(worker, "service_listings").items| == 0 ==>
      r == Some("")
    ensures !Nullish(worker) && Nullish(Prop(worker, "service_listings")) ==> r == Some("")
    ensures !Nullish(worker) && Prop(worker, "service_listings").Arr? && |Prop(worker, "service_listings").items| > 0 ==>
      var first := Prop(worker, "service_listings").items[0];
      var types := Prop(first, "service_types");
      (Nullish(first) || Nullish(types) ==> r == Some(""))
      && (!Nullish(first) && !Nullish(types) && !types.Arr? ==> r.None?)
      && (!Nullish(first) && types.Arr? ==>
            (r.None? <==> WorkersIndex.Names(WorkersIndex.Take2(types.items)).None?)
            && (r.Some? ==> r.value == JoinValues(WorkersIndex.Names(WorkersIndex.Take2(types.items)).value, ", ")))
  {
    if Nullish(worker) then None
    else
      var listings := Prop(worker, "service_listings");
      if Nullish(listings) then Some("")
      else
        var first := Element0(listings);
        if Nullish(first) then Some("")
        else
          var types := Prop(first, "service_types");
          if Nullish(types) then Some("")
          else if !types.Arr? then None
          else match WorkersIndex.Names(WorkersIndex.Take2(types.items))
            case None => None
            case Some(names) => Some(JoinValues(names, ", "))
  }

  /** `worker.religion?.label?.split(' ')[0]`, `""` where the chain stops;
      a label that is not a string throws. */
  function ReligionPart(worker: Value): (r: Option<string>)
    requires !Nullish(worker)
    ensures r.None? <==> !Nullish(Field(Prop(worker, "religion"), "label")) && !Field(Prop(worker, "religion"), "label").Str?
    ensures r.Some? && Field(Prop(worker, "religion"), "label").Str? ==>
      r.value == WorkersIndex.FirstWord(Field(Prop(worker, "religion"), "label").s)
    ensures Nullish(Field(Prop(worker, "religion"), "label")) ==> r == Some("")
  {
    var lbl := Field(Prop(worker, "religion"), "label");
    if Nullish(lbl) then Some("")
    else if !lbl.Str? then None
    else Some(WorkersIndex.FirstWord(lbl.s))
  }

  /** The three candidate parts, `""` standing for a falsy one. */
  function Candidates(worker: Value): (r: Option<seq<string>>)
    ensures r.Some? ==> |r.value| == 3
    ensures r.None? <==> ServicesPart(worker).None? || ReligionPart(worker).None?
    ensures r.Some? ==>
      var years := Prop(worker, "experience_years");
      r.value[0] == ServicesPart(worker).value && r.value[2] == ReligionPart(worker).value
      && r.value[1] == if Truthy(years) then Text(years) + "y exp" else ""
  {
    match ServicesPart(worker)
    case None => None
    case Some(services) =>
      match ReligionPart(worker)
      case None => None
      case Some(word) =>
        Some([services,
              if Truthy(Prop(worker, "experience_years")) then WorkersIndex.ExperiencePart(worker) else "",
              word])
  }

  /** The detail line: the truthy parts joined with `" • "`, or
      `"No details"`. */
  function Details(worker: Value): (r: Option<string>)
    ensures r.None? <==> Candidates(worker).None?
    ensures r.Some? ==> r.value != ""
    ensures r.Some? ==>
      (r.value == "No details" <==> (forall k :: 0 <= k < 3 ==> Candidates(worker).value[k] == "")
                                     || Strings.Join(Strings.NonEmpty(Candidates(worker).value), " • ") == "No details")
    ensures r.Some? ==>
      var parts := Candidates(worker).value;
      r.value == if forall k :: 0 <= k < 3 ==> parts[k] == "" then "No details"
                 else Strings.Join(Strings.NonEmpty(parts), " • ")
  {
    match Candidates(worker)
    case None => None
    case Some(parts) =>
      var joined := Strings.Join(Strings.NonEmpty(parts), " • ");
      Strings.JoinNonEmptyEmpty(parts, " • ");
      Some(if joined == "" then "No details" else joined)
  }

  /** `filter(Boolean)` on three parts keeps the non-empty ones in order. */
  lemma NonEmptyThree(a: string, b: string, c: string)
    ensures Strings.NonEmpty([a, b, c])
      == (if a != "" then [a] else []) + (if b != "" then [b] else []) + (if c != "" then [c] else [])
  {
    assert [a, b, c][1..] == [b, c];
    assert [b, c][1..] == [c];
    assert [c][1..] == [];
    assert Strings.NonEmpty([c]) == (if c != "" then [c] else []) + Strings.NonEmpty([]);
  }

  /** A worker whose fields have the shapes the screens expect: no listing
      list other than an array, a first listing whose service types are
      absent or truthy, and a religion label that is absent or a string not
      starting with a space. */
  predicate Regular(worker: Value) {
    !Nullish(worker)
    && (Nullish(Prop(worker, "service_listings")) || Prop(worker, "service_listings").Arr?)
    && (Prop(worker, "service_listings").Arr? && |Prop(worker, "service_listings").items| > 0 ==>
          var types := Field(Prop(worker, "service_listings").items[0], "service_types");
          Nullish(types) || Truthy(types))
    && (Nullish(Field(Prop(worker, "religion"), "label"))
        || (Field(Prop(worker, "religion"), "label").Str?
            && (Field(Prop(worker, "religion"), "label").s == ""
                || Field(Prop(worker, "religion"), "label").s[0] != ' ')))
  }

  /** For a regular worker both screens write the same detail line. */
  lemma SameDetailsAsWorkerList(worker: Value)
    requires Regular(worker)
    ensures Details(worker) == WorkersIndex.Details(worker)
  {
    var services := WorkersIndex.ServiceTypes(worker);
    assert ServicesPart(worker) == services;
    var lbl := Field(Prop(worker, "religion"), "label");
    var word := ReligionPart(worker).value;
    assert Truthy(lbl) ==> word == WorkersIndex.FirstWord(lbl.s) && word != "";
    assert !Truthy(lbl) ==> word == "";
    if services.Some? {
      var e := if Truthy(Prop(worker, "experience_years")) then WorkersIndex.ExperiencePart(worker) else "";
      NonEmptyThree(services.value, e, word);
      assert WorkersIndex.DetailParts(worker) == Some(Strings.NonEmpty([services.value, e, word]));
    }
  }

  /** A label starting with a space makes the workers screen push an empty
      word, leaving a trailing separator the dashboard filters out. */
  lemma LeadingSpaceLabel(worker: Value, services: string, rest: string)
    requires WorkersIndex.ServiceTypes(worker) == Some(services) && services != ""
    requires !Truthy(Prop(worker, "experience_years"))
    requires Field(Prop(worker, "religion"), "label") == Str(" " + rest)
    ensures WorkersIndex.Details(worker) == Some(services + " • ")
    ensures Details(worker) == Some(services)
  {
    var lbl := " " + rest;
    assert WorkersIndex.FirstWord(lbl) == "";
    assert ServicesPart(worker) == Some(services);
    assert WorkersIndex.DetailParts(worker) == Some([services] + [] + [""]);
    assert [services] + [] + [""] == [services, ""];
    Strings.JoinPair(services, "", " • ");
    assert services + " • " + "" == services + " • ";
    NonEmptyThree(services, "", "");
    assert Strings.NonEmpty([services, "", ""]) == [services];
  }

  /** The card's title: `full_name || name`. */
  function DisplayName(worker: Value): (r: Value)
    requires !Nullish(worker)
    ensures Truthy(r) <==> Truthy(Prop(worker, "full_name")) || Truthy(Prop(worker, "name"))
    ensures Truthy(Prop(worker, "full_name")) ==> r == Prop(worker, "full_name")
    ensures !Truthy(Prop(worker, "full_name")) ==> r == Prop(worker, "name")
  {
    Or(Prop(worker, "full_name"), Prop(worker, "name"))
  }

  /** The two screens prefer opposite fields: a worker with a name shows
      different titles on them exactly when both fields are truthy and
      differ. */
  lemma TitlesDiffer(worker: Value)
    requires !Nullish(worker) && (Truthy(Prop(worker, "name")) || Truthy(Prop(worker, "full_name")))
    ensures DisplayName(worker) != WorkersIndex.DisplayName(worker) <==>
      (Truthy(Prop(worker, "name")) && Truthy(Prop(worker, "full_name")) && Prop(worker, "name") != Prop(worker, "full_name"))
  {
  }
}
