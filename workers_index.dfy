/**
 * `app/workers/index.tsx`: a business's list of its workers. The list is
 * taken from whichever envelope the response uses, and each card shows the
 * worker's name and a detail line built from the first listing's service
 * types, the years of experience and the first word of the religion label.
 * Workers are JSON values; reading a property of `null`/`undefined`, or
 * calling a string or array method on a value that lacks it, throws, and
 * such a render is `None` here.
 */
module WorkersIndex {
  import opened Wrappers
  import opened Js
  import Strings

  /** The workers in a response body: the first array among the body itself,
      `workers.data`, `workers` and `data`; otherwise none. */
  function ExtractWorkers(data: Value): (r: seq<Value>)
    ensures IsArray(data) ==> r == data.items
    ensures !IsArray(data) && IsArray(Prop(Prop(data, "workers"), "data")) ==>
      r == Prop(Prop(data, "workers"), "data").items
    ensures !IsArray(data) && !IsArray(Prop(Prop(data, "workers"), "data")) && IsArray(Prop(data, "workers")) ==>
      r == Prop(data, "workers").items
    ensures !IsArray(data) && !IsArray(Prop(Prop(data, "workers"), "data")) && !IsArray(Prop(data, "workers")) ==>
      r == (if IsArray(Prop(data, "data")) then Prop(data, "data").items else [])
  {
    var workers := Prop(data, "workers");
    if IsArray(data) then data.items
    else if Truthy(workers) && Truthy(Prop(workers, "data")) && IsArray(Prop(workers, "data")) then Prop(workers, "data").items
    else if Truthy(workers) && IsArray(workers) then workers.items
    else if Truthy(Prop(data, "data")) && IsArray(Prop(data, "data")) then Prop(data, "data").items
    else []
  }

  /** Each envelope the screen knows gives back the list it wraps. */
  lemma EnvelopesUnwrapped(ws: seq<Value>)
    ensures ExtractWorkers(Arr(ws)) == ws
    ensures ExtractWorkers(Obj(map["workers" := Obj(map["data" := Arr(ws)])])) == ws
    ensures ExtractWorkers(Obj(map["workers" := Arr(ws)])) == ws
    ensures ExtractWorkers(Obj(map["data" := Arr(ws)])) == ws
  {
  }

  /** The list screen's state. */
  class WorkerList {
    var workers: seq<Value>
    var isLoading: bool

    constructor()
      ensures workers == [] && isLoading
    {
      workers := [];
      isLoading := true;
    }

    /** `fetchWorkers`. The request's endpoint is looked up first;
        `hasEndpoint` false is the lookup throwing, which the catch swallows.
        Otherwise the list is replaced after a successful response with a
        truthy body. */
    method FetchWorkers(hasEndpoint: bool, success: bool, data: Value)
      modifies this
      ensures workers == (if hasEndpoint && success && Truthy(data) then ExtractWorkers(data) else old(workers))
      ensures !isLoading
    {
      isLoading := true;
      if hasEndpoint && success && Truthy(data) {
        var workersData: seq<Value> := [];
        if IsArray(data) {
          workersData := data.items;
        } else if Truthy(Prop(data, "workers")) && Truthy(Prop(Prop(data, "workers"), "data"))
          && IsArray(Prop(Prop(data, "workers"), "data")) {
          workersData := Prop(Prop(data, "workers"), "data").items;
        } else if Truthy(Prop(data, "workers")) && IsArray(Prop(data, "workers")) {
          workersData := Prop(data, "workers").items;
        } else if Truthy(Prop(data, "data")) && IsArray(Prop(data, "data")) {
          workersData := Prop(data, "data").items;
        }
        workers := workersData;
      }
      isLoading := false;
    }
  }

  /** The first two elements (`slice(0, 2)`). */
  function Take2(items: seq<Value>): (r: seq<Value>)
    ensures |r| <= 2 && |r| <= |items| && r == items[..|r|]
    ensures |items| <= 2 ==> r == items
  {
    if |items| <= 2 then items else items[..2]
  }

  /** `items.map(s => s.name)`; `None` when an element is `null` or
      `undefined`. */
  function Names(items: seq<Value>): (r: Option<seq<Value>>)
    ensures r.None? <==> exists i :: 0 <= i < |items| && Nullish(items[i])
    ensures r.Some? ==> |r.value| == |items| && forall i :: 0 <= i < |items| ==> r.value[i] == Prop(items[i], "name")
    decreases |items|
  {
    if items == [] then Some([])
    else if Nullish(items[0]) then None
    else match Names(items[1..])
      case None => None
      case Some(rest) => Some([Prop(items[0], "name")] + rest)
  }

  /** `getServiceTypes`: the names of the first listing's first two service
      types joined with `", "`; `""` without listings. */
  function ServiceTypes(worker: Value): (r: Option<string>)
    ensures Nullish(worker) ==> r.None?
    ensures !Nullish(worker) && !(Prop(worker, "service_listings").Arr? && |Prop(worker, "service_listings").items| > 0) ==>
      r == Some("")
  {
    if Nullish(worker) then None
    else
      var listings := Prop(worker, "service_listings");
      if !(listings.Arr? && |listings.items| > 0) then Some("")
      else
        var types := Or(Field(listings.items[0], "service_types"), Arr([]));
        if !types.Arr? then None
        else match Names(Take2(types.items))
          case None => None
          case Some(names) => Some(JoinValues(names, ", "))
  }

  /** Service types named `names`, in order. */
  function TypesNamed(names: seq<string>): (r: seq<Value>)
    ensures |r| == |names|
  {
    seq(|names|, i requires 0 <= i < |names| => Obj(map["name" := Str(names[i])]))
  }

  function Strs(names: seq<string>): (r: seq<Value>)
    ensures |r| == |names|
  {
    seq(|names|, i requires 0 <= i < |names| => Str(names[i]))
  }

  lemma {:induction false} NamesOfTypesNamed(names: seq<string>)
    ensures Names(TypesNamed(names)) == Some(Strs(names))
    decreases |names|
  {
    if names != [] {
      NamesOfTypesNamed(names[1..]);
      assert TypesNamed(names)[1..] == TypesNamed(names[1..]);
      assert Strs(names) == [Str(names[0])] + Strs(names[1..]);
    }
  }

  /** A worker whose first listing has service types named `names` is shown
      with the first two of them. */
  lemma ServiceTypesOfNamed(m: map<string, Value>, listing: map<string, Value>, rest: seq<Value>, names: seq<string>)
    requires "service_listings" in m && m["service_listings"] == Arr([Obj(listing)] + rest)
    requires "service_types" in listing && listing["service_types"] == Arr(TypesNamed(names))
    ensures ServiceTypes(Obj(m)) == Some(Strings.Join(if |names| <= 2 then names else names[..2], ", "))
  {
    var kept := if |names| <= 2 then names else names[..2];
    FirstListingTypes(m, listing, rest, TypesNamed(names));
    Take2Named(names);
    NamesOfTypesNamed(kept);
    JoinStrs(kept);
  }

  /** `ServiceTypes` reads the first listing's `service_types` array. */
  lemma FirstListingTypes(m: map<string, Value>, listing: map<string, Value>, rest: seq<Value>, types: seq<Value>)
    requires "service_listings" in m && m["service_listings"] == Arr([Obj(listing)] + rest)
    requires "service_types" in listing && listing["service_types"] == Arr(types)
    ensures Names(Take2(types)).Some? ==> ServiceTypes(Obj(m)) == Some(JoinValues(Names(Take2(types)).value, ", "))
  {
    assert Prop(Obj(m), "service_listings").items[0] == Obj(listing);
    assert Or(Field(Obj(listing), "service_types"), Arr([])) == Arr(types);
  }

  lemma Take2Named(names: seq<string>)
    ensures Take2(TypesNamed(names)) == TypesNamed(if |names| <= 2 then names else names[..2])
  {
  }

  lemma JoinStrs(kept: seq<string>)
    ensures JoinValues(Strs(kept), ", ") == Strings.Join(kept, ", ")
  {
    var strs := Strs(kept);
    assert forall i :: 0 <= i < |strs| ==> strs[i].Str?;
    assert seq(|strs|, i requires 0 <= i < |strs| => strs[i].s) == kept;
  }

  /** `label.split(' ')[0]`: the text before the first space. */
  function FirstWord(text: string): (r: string)
    ensures ' ' !in r
    ensures |r| <= |text| && r == text[..|r|]
    ensures r == "" <==> text == "" || text[0] == ' '
  {
    Strings.SplitPiecesFree(text, " ");
    Strings.NotContainsChar(Strings.Split(text, " ")[0], ' ');
    FirstPieceIsPrefix(text);
    Strings.Split(text, " ")[0]
  }

  lemma FirstPieceIsPrefix(text: string)
    ensures var p := Strings.Split(text, " ")[0];
      p == text[..|p|] && (p == "" <==> text == "" || text[0] == ' ')
  {
    match Strings.IndexOf(text, " ")
    case None =>
      if text != "" {
        assert text[0..1] == [text[0]];
      }
    case Some(i) =>
      assert text[i..i + 1] == " ";
      if i > 0 {
        assert text[0..1] == [text[0]];
      }
  }

  /** The experience part, when `experience_years` is truthy. */
  function ExperiencePart(worker: Value): (r: string)
    requires !Nullish(worker)
    requires Truthy(Prop(worker, "experience_years"))
    ensures r == Text(Prop(worker, "experience_years")) + "y exp" && r != ""
  {
    Text(Prop(worker, "experience_years")) + "y exp"
  }

  /** The parts `getWorkerDetails` pushes, in order: the services when not
      empty, the experience when truthy, the religion label's first word when
      the label is truthy (even when that word is empty). Calling `split` on
      a truthy label that is not a string throws. */
  function DetailParts(worker: Value): (r: Option<seq<string>>)
    ensures r.None? <==>
      (ServiceTypes(worker).None?
       || (Truthy(Field(Prop(worker, "religion"), "label")) && !Field(Prop(worker, "religion"), "label").Str?))
    ensures r.Some? ==>
      var services := ServiceTypes(worker).value;
      var years := Prop(worker, "experience_years");
      var lbl := Field(Prop(worker, "religion"), "label");
      var s := if services != "" then 1 else 0;
      var e := if Truthy(years) then 1 else 0;
      |r.value| == s + e + (if Truthy(lbl) then 1 else 0)
      && (services != "" ==> r.value[0] == services)
      && (Truthy(years) ==> r.value[s] == Text(years) + "y exp")
      && (Truthy(lbl) ==> r.value[s + e] == FirstWord(lbl.s))
  {
    match ServiceTypes(worker)
    case None => None
    case Some(services) =>
      var text := Field(Prop(worker, "religion"), "label");
      if Truthy(text) && !text.Str? then None
      else
        Some((if services != "" then [services] else [])
          + (if Truthy(Prop(worker, "experience_years")) then [ExperiencePart(worker)] else [])
          + (if Truthy(text) then [FirstWord(text.s)] else []))
  }

  /** The detail line: the parts joined with `" • "`, or `"No details"` when
      that is empty. */
  function Details(worker: Value): (r: Option<string>)
    ensures r.None? <==> DetailParts(worker).None?
    ensures r.Some? ==> r.value != ""
    ensures r.Some? && DetailParts(worker).value == [] ==> r.value == "No details"
    ensures r.Some? ==>
      var parts := DetailParts(worker).value;
      r.value == if parts == [] || parts == [""] then "No details" else Strings.Join(parts, " • ")
  {
    match DetailParts(worker)
    case None => None
    case Some(parts) =>
      var joined := Strings.Join(parts, " • ");
      Strings.JoinEmpty(parts, " • ");
      Some(if joined == "" then "No details" else joined)
  }

  /** `getWorkerDetails`, pushing onto `parts` as the screen does. */
  method GetWorkerDetails(worker: Value) returns (r: Option<string>)
    ensures r == Details(worker)
  {
    var services := ServiceTypes(worker);
    if services.None? {
      return None;
    }
    var text := Field(Prop(worker, "religion"), "label");
    if Truthy(text) && !text.Str? {
      return None;
    }
    var parts: seq<string> := [];
    if services.value != "" {
      parts := parts + [services.value];
    }
    assert parts == (if services.value != "" then [services.value] else []);
    if Truthy(Prop(worker, "experience_years")) {
      parts := parts + [ExperiencePart(worker)];
    }
    assert parts == (if services.value != "" then [services.value] else [])
      + (if Truthy(Prop(worker, "experience_years")) then [ExperiencePart(worker)] else []);
    if Truthy(text) {
      parts := parts + [FirstWord(text.s)];
    } else {
      assert parts + [] == parts;
    }
    assert DetailParts(worker) == Some(parts);
    var joined := Strings.Join(parts, " • ");
    r := Some(if joined == "" then "No details" else joined);
  }

  /** Zero years of experience shows the same line as none recorded. */
  lemma ZeroExperienceOmitted(m: map<string, Value>)
    ensures Details(Obj(m["experience_years" := Num(0)])) == Details(Obj(m - {"experience_years"}))
  {
    var a := Obj(m["experience_years" := Num(0)]);
    var b := Obj(m - {"experience_years"});
    assert Prop(a, "service_listings") == Prop(b, "service_listings");
    assert Prop(a, "religion") == Prop(b, "religion");
    assert ServiceTypes(a) == ServiceTypes(b);
    assert DetailParts(a) == DetailParts(b);
  }

  /** With all three parts present the line lists them in order. */
  lemma DetailsInOrder(worker: Value, services: string, years: int, word: string, rest: string)
    requires ServiceTypes(worker) == Some(services) && services != ""
    requires Prop(worker, "experience_years") == Num(years) && years != 0
    requires Field(Prop(worker, "religion"), "label") == Str(word + rest)
    requires word != "" && ' ' !in word && (rest == "" || rest[0] == ' ')
    ensures Details(worker) == Some(services + " • " + (Strings.IntToString(years) + "y exp") + " • " + word)
  {
    var e := Strings.IntToString(years) + "y exp";
    PartsInOrder(worker, services, years, word, rest);
    JoinThree(services, e, word, " • ");
    var joined := services + " • " + e + " • " + word;
    assert joined != "" by {
      assert |joined| >= |services| > 0;
    }
    assert Strings.Join([services, e, word], " • ") == joined;
  }

  /** The three parts, in the order they are pushed. */
  lemma PartsInOrder(worker: Value, services: string, years: int, word: string, rest: string)
    requires ServiceTypes(worker) == Some(services) && services != ""
    requires Prop(worker, "experience_years") == Num(years) && years != 0
    requires Field(Prop(worker, "religion"), "label") == Str(word + rest)
    requires word != "" && ' ' !in word && (rest == "" || rest[0] == ' ')
    ensures DetailParts(worker) == Some([services, Strings.IntToString(years) + "y exp", word])
  {
    var text := word + rest;
    assert text[..|word|] == word;
    FirstWordAt(text, word);
    var e := Strings.IntToString(years) + "y exp";
    assert ExperiencePart(worker) == e;
    assert [services] + [e] + [word] == [services, e, word];
  }

  lemma JoinThree(a: string, b: string, c: string, sep: string)
    ensures Strings.Join([a, b, c], sep) == a + sep + b + sep + c
  {
    assert [a, b, c][1..] == [b, c];
    Strings.JoinPair(b, c, sep);
  }

  /** The first word stops at the first space: a space-free prefix of the
      label that the label continues with a space (or ends after) is it. */
  lemma FirstWordAt(text: string, word: string)
    requires word != "" && ' ' !in word
    requires |word| <= |text| && text[..|word|] == word
    requires |word| == |text| || text[|word|] == ' '
    ensures FirstWord(text) == word
  {
    forall j | 0 <= j < |word| ensures !Strings.OccursAt(text, " ", j) {
      assert text[j..j + 1] == [word[j]];
    }
    if |word| == |text| {
      assert text == word;
      Strings.SplitWithoutSeparator(text, ' ');
    } else {
      assert text[|word|..|word| + 1] == " ";
      assert Strings.OccursAt(text, " ", |word|);
      assert Strings.IndexOf(text, " ") == Some(|word|);
    }
  }

  /** The card's title: `name || full_name`. */
  function DisplayName(worker: Value): (r: Value)
    requires !Nullish(worker)
    ensures Truthy(r) <==> Truthy(Prop(worker, "name")) || Truthy(Prop(worker, "full_name"))
    ensures Truthy(Prop(worker, "name")) ==> r == Prop(worker, "name")
    ensures !Truthy(Prop(worker, "name")) ==> r == Prop(worker, "full_name")
  {
    Or(Prop(worker, "name"), Prop(worker, "full_name"))
  }
}
