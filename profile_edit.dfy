/**
 * `app/profile/edit.tsx`: how the edit screen reads languages and the city
 * from the user record, and the flat update it sends on save.
 */
module ProfileEdit {
  import opened Wrappers
  import opened Js
  import Strings
  import ListOps
  import Auth

  /** `typeof l === 'string' ? parseInt(l) : l`, kept only when it is a
      number (`NaN` is dropped). `parseInt` has no radix here, so a `0x`
      prefix is read in base 16. */
  function InitialLanguage(l: Value): (r: Option<int>)
    ensures l.Num? ==> r == Some(l.n)
    ensures l.Str? ==> r == Strings.ParseIntAuto(l.s)
    ensures !l.Num? && !l.Str? ==> r.None?
  {
    match l
    case Str(s) => Strings.ParseIntAuto(s)
    case Num(n) => Some(n)
    case _ => None
  }

  function InitialLanguageList(items: seq<Value>): (r: seq<int>)
    ensures |r| <= |items|
    ensures (forall i :: 0 <= i < |items| ==> items[i].Num?) ==> |r| == |items|
    ensures forall x :: x in r ==> exists i :: 0 <= i < |items| && InitialLanguage(items[i]) == Some(x)
    ensures (forall i :: 0 <= i < |items| ==> InitialLanguage(items[i]).Some?) ==>
      |r| == |items| && forall i :: 0 <= i < |items| ==> r[i] == InitialLanguage(items[i]).value
  {
    if items == [] then []
    else
      var rest := InitialLanguageList(items[1..]);
      assert forall j :: 0 <= j < |items| - 1 ==> items[1..][j] == items[j + 1];
      (if InitialLanguage(items[0]).Some? then [InitialLanguage(items[0]).value] else []) + rest
  }

  /** The map-and-filter works entry by entry: the list of a concatenation
      is the concatenation of the lists, so every kept entry keeps its
      place relative to the others. */
  lemma {:induction false} InitialLanguageListAppend(a: seq<Value>, b: seq<Value>)
    ensures InitialLanguageList(a + b) == InitialLanguageList(a) + InitialLanguageList(b)
    decreases |a|
  {
    if a == [] {
      assert a + b == b;
    } else {
      assert (a + b)[1..] == a[1..] + b;
      InitialLanguageListAppend(a[1..], b);
    }
  }

  /** The languages state a helper starts with: the profile's list when it
      is an array, parsed; anyone else starts with none. */
  function InitialLanguages(user: Option<Auth.Record>): (r: seq<int>)
    ensures user.None? || FieldOf(user.value, "userType") != Str("helper") ==> r == []
  {
    if user.Some? && FieldOf(user.value, "userType") == Str("helper") then
      var languages := Field(FieldOf(user.value, "profileData"), "languages");
      if languages.Arr? then InitialLanguageList(languages.items) else []
    else []
  }

  /** One entry when the screen re-syncs from the profile: an object gives
      `id || value` (which may be `undefined`), a string is parsed (with no
      radix), a number is kept, anything else is `null`; the `null`s,
      including an object's `null` value, are then filtered out. */
  function SyncedLanguage(l: Value): (r: Option<Value>)
    ensures l.Obj? || l.Arr? ==>
      (r.None? <==> Or(Prop(l, "id"), Prop(l, "value")) == Null) &&
      (r.Some? ==> r.value == Or(Prop(l, "id"), Prop(l, "value")))
    ensures l.Num? ==> r == Some(l)
    ensures l.Str? ==> (r.Some? <==> Strings.ParseIntAuto(l.s).Some?)
    ensures l.Str? && r.Some? ==> r.value == Num(Strings.ParseIntAuto(l.s).value)
    ensures Nullish(l) || l.Bool? ==> r.None?
    ensures r.Some? ==> r.value != Null
  {
    match l
    case Obj(_) => NonNull(Or(Prop(l, "id"), Prop(l, "value")))
    case Arr(_) => NonNull(Or(Prop(l, "id"), Prop(l, "value")))
    case Str(s) =>
      var n := Strings.ParseIntAuto(s);
      if n.Some? then Some(Num(n.value)) else None
    case Num(_) => Some(l)
    case _ => None
  }

  /** `.filter((l) => l !== null)` on one mapped entry. */
  function NonNull(v: Value): (r: Option<Value>)
    ensures r.None? <==> v == Null
    ensures r.Some? ==> r.value == v
  {
    if v == Null then None else Some(v)
  }

  function SyncedLanguages(items: seq<Value>): (r: seq<Value>)
    ensures |r| <= |items|
    ensures Null !in r
    ensures forall x :: x in r ==> exists i :: 0 <= i < |items| && SyncedLanguage(items[i]) == Some(x)
    ensures (forall i :: 0 <= i < |items| ==> SyncedLanguage(items[i]).Some?) ==>
      |r| == |items| && forall i :: 0 <= i < |items| ==> r[i] == SyncedLanguage(items[i]).value
  {
    if items == [] then []
    else
      var rest := SyncedLanguages(items[1..]);
      assert forall j :: 0 <= j < |items| - 1 ==> items[1..][j] == items[j + 1];
      var h := SyncedLanguage(items[0]);
      var head := if h.Some? then [h.value] else [];
      assert Null !in head;
      head + rest
  }

  /** As for the initial list: re-syncing works entry by entry and keeps
      the order of the entries it keeps. */
  lemma {:induction false} SyncedLanguagesAppend(a: seq<Value>, b: seq<Value>)
    ensures SyncedLanguages(a + b) == SyncedLanguages(a) + SyncedLanguages(b)
    decreases |a|
  {
    if a == [] {
      assert a + b == b;
    } else {
      assert (a + b)[1..] == a[1..] + b;
      SyncedLanguagesAppend(a[1..], b);
    }
  }

  /** An object entry whose `id || value` is `null` (say `{value: null}`
      or `{id: 0, value: null}`) is filtered out wherever it stands, and the
      entries around it are kept as they are. */
  lemma NullObjectDropped(a: seq<Value>, l: Value, b: seq<Value>)
    requires l.Obj? && Or(Prop(l, "id"), Prop(l, "value")) == Null
    ensures SyncedLanguages(a + [l] + b) == SyncedLanguages(a) + SyncedLanguages(b)
  {
    var al := a + [l];
    SyncedLanguagesAppend(al, b);
    SyncedLanguagesAppend(a, [l]);
    NullObjectAlone(l);
    assert SyncedLanguages(al) == SyncedLanguages(a);
  }

  lemma NullObjectAlone(l: Value)
    requires l.Obj? && Or(Prop(l, "id"), Prop(l, "value")) == Null
    ensures SyncedLanguages([l]) == []
  {
    assert SyncedLanguage(l).None?;
    assert [l][1..] == [];
  }

  /** An object entry with neither `id` nor `value` survives the `null`
      filter as `undefined`. */
  lemma ObjectWithoutIdStaysUndefined()
    ensures SyncedLanguages([Obj(map["name" := Str("Urdu")])]) == [Undefined]
  {
    var l := Obj(map["name" := Str("Urdu")]);
    assert "id" !in l.fields && "value" !in l.fields;
    assert [l][1..] == [];
  }

  /** `cId ? (typeof cId === 'string' ? parseInt(cId, 10) : cId) : null`.
      `NaN` is written as `null`, which is what JSON carries for it. */
  function NormaliseCityId(cId: Value): (r: Value)
    ensures !Truthy(cId) ==> r == Null
    ensures cId.Num? && cId.n != 0 ==> r == cId
    ensures cId.Str? && cId.s != "" ==> (r.Num? <==> Strings.ParseInt(cId.s).Some?)
  {
    if !Truthy(cId) then Null
    else if cId.Str? then
      match Strings.ParseInt(cId.s)
      case Some(n) => Num(n)
      case None => Null
    else cId
  }

  /** `toggleLanguage` on the screen's list. */
  function ToggleLanguage(languages: seq<Value>, id: Value): (r: seq<Value>)
    ensures id in r <==> id !in languages
    ensures forall x :: x != id ==> (x in r <==> x in languages)
  {
    ListOps.Toggle(languages, id)
  }

  datatype Form = Form(
    name: string,
    bio: string,
    age: string,
    gender: string,
    religion: string,
    languages: seq<Value>,
    cityId: Value,
    address: string,
    pin: Option<(real, real)>)

  /** The update `handleSave` sends; `None` is a key the object does not
      have. Coordinates are reals. */
  datatype ProfileUpdate = ProfileUpdate(
    name: string,
    cityId: Option<Value>,
    bio: Option<Value>,
    age: Option<Value>,
    gender: Option<Value>,
    religion: Option<Value>,
    languages: Option<seq<Value>>,
    address: Option<string>,
    pin: Option<(real, real)>)

  datatype Save = NameRequired | Send(update: ProfileUpdate)

  datatype Kind = Helper | Customer | Business | Other

  /** `user?.userType`, compared with `'helper'`, `'user'` and `'business'`. */
  function KindOf(user: Option<Auth.Record>): (r: Kind)
    ensures r == Helper <==> user.Some? && FieldOf(user.value, "userType") == Str("helper")
    ensures r == Customer <==> user.Some? && FieldOf(user.value, "userType") == Str("user")
    ensures r == Business <==> user.Some? && FieldOf(user.value, "userType") == Str("business")
  {
    if user.None? then Other
    else
      var t := FieldOf(user.value, "userType");
      if t == Str("helper") then Helper
      else if t == Str("user") then Customer
      else if t == Str("business") then Business
      else Other
  }

  /** `age.trim() ? parseInt(age) : undefined`, with `NaN` written as `null`;
      `parseInt` has no radix, so `0x` starts a hexadecimal age. */
  function AgeValue(age: string): (r: Value)
    ensures Strings.IsBlank(age) ==> r == Undefined
    ensures !Strings.IsBlank(age) && Strings.ParseIntAuto(age).Some? ==> r == Num(Strings.ParseIntAuto(age).value)
    ensures !Strings.IsBlank(age) && Strings.ParseIntAuto(age).None? ==> r == Null
  {
    if Strings.Trim(age) == "" then Undefined
    else if Strings.ParseIntAuto(age).Some? then Num(Strings.ParseIntAuto(age).value) else Null
  }

  /** `bio.trim() || undefined`. */
  function BioValue(bio: string): (r: Value)
    ensures r == if Strings.IsBlank(bio) then Undefined else Str(Strings.Trim(bio))
  {
    Or(Str(Strings.Trim(bio)), Undefined)
  }

  /** `gender ? gender.toLowerCase() : undefined`. */
  function GenderValue(gender: string): (r: Value)
    ensures gender == "" ==> r == Undefined
    ensures gender != "" ==> r == Str(Strings.ToLower(gender))
  {
    if gender != "" then Str(Strings.ToLower(gender)) else Undefined
  }

  /** `religion || undefined`. */
  function ReligionValue(religion: string): (r: Value)
    ensures r == if religion == "" then Undefined else Str(religion)
  {
    Or(Str(religion), Undefined)
  }

  /** `handleSave` up to the `updateUser` call: the update is built field by
      field, each under the user type that owns it. A user of any other type
      is not checked for a name. */
  method HandleSave(kind: Kind, f: Form) returns (r: Save)
    ensures r == NameRequired <==> kind != Other && Strings.IsBlank(f.name)
    ensures r.Send? ==> r.update.name == Strings.Trim(f.name) && r.update.pin == f.pin
    ensures r.Send? ==> r.update.cityId == if kind == Customer || kind == Business then Some(f.cityId) else None
    ensures r.Send? ==> r.update.languages == if kind == Helper then Some(f.languages) else None
    ensures r.Send? && kind != Helper ==> r.update.bio.None? && r.update.age.None? && r.update.gender.None? && r.update.religion.None?
    ensures r.Send? && kind == Helper ==>
      r.update.bio == Some(BioValue(f.bio)) && r.update.age == Some(AgeValue(f.age))
      && r.update.gender == Some(GenderValue(f.gender)) && r.update.religion == Some(ReligionValue(f.religion))
    ensures r.Send? ==> r.update.address == if f.address != "" then Some(f.address) else None
  {
    if kind == Helper && Strings.Trim(f.name) == "" {
      return NameRequired;
    }
    if (kind == Customer || kind == Business) && Strings.Trim(f.name) == "" {
      return NameRequired;
    }
    var cityId: Option<Value> := None;
    if kind == Customer || kind == Business {
      cityId := Some(f.cityId);
    }
    var bio: Option<Value>, age: Option<Value>, gender: Option<Value>, religion: Option<Value> := None, None, None, None;
    var languages: Option<seq<Value>> := None;
    if kind == Helper {
      bio := Some(BioValue(f.bio));
      age := Some(AgeValue(f.age));
      gender := Some(GenderValue(f.gender));
      religion := Some(ReligionValue(f.religion));
      languages := Some(f.languages);
    }
    var address: Option<string> := None;
    if f.address != "" {
      address := Some(f.address);
    }
    var pin: Option<(real, real)> := None;
    if f.pin.Some? {
      pin := f.pin;
    }
    var update := ProfileUpdate(Strings.Trim(f.name), cityId, bio, age, gender, religion, languages, address, pin);
    return Send(update);
  }
}
