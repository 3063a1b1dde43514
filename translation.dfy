/**
 * `hooks/useTranslation.ts`: `t(key)` walks a dotted key through the
 * translation table of the selected language and falls back to English,
 * then to the key itself. The tables are a parameter.
 */
module Translation {
  import opened Wrappers
  import opened Js
  import Strings

  /** One step of the walk: `value && typeof value === 'object' && k in value`
      (objects only; see the README for arrays and inherited properties). */
  predicate CanStep(v: Value, k: string) {
    Truthy(v) && v.Obj? && k in v.fields
  }

  /** Where a path of segments leads from `v`; `None` at the first segment
      that does not resolve. */
  function Walk(v: Value, path: seq<string>): (r: Option<Value>)
    ensures path == [] ==> r == Some(v)
    ensures path != [] && r.Some? ==> v.Obj? && path[0] in v.fields
    decreases |path|
  {
    if path == [] then Some(v)
    else if CanStep(v, path[0]) then Walk(v.fields[path[0]], path[1..])
    else None
  }

  /** Walking a longer path is walking its prefix, then the rest; a prefix
      that does not resolve stops the walk. */
  lemma {:induction false} WalkAppend(v: Value, p: seq<string>, q: seq<string>)
    ensures Walk(v, p + q) == match Walk(v, p) case None => None case Some(w) => Walk(w, q)
    decreases |p|
  {
    if p == [] {
      assert p + q == q;
    } else {
      assert (p + q)[0] == p[0];
      assert (p + q)[1..] == p[1..] + q;
      if CanStep(v, p[0]) {
        WalkAppend(v.fields[p[0]], p[1..], q);
      }
    }
  }

  /** `translations[language]`: with no language the property key is the
      string `"undefined"`. */
  function Table(tables: map<string, Value>, language: Option<string>): (r: Value)
    ensures language.Some? && language.value in tables ==> r == tables[language.value]
    ensures (language.None? && "undefined" !in tables) || (language.Some? && language.value !in tables) ==> r == Undefined
  {
    var name := language.GetOr("undefined");
    if name in tables then tables[name] else Undefined
  }

  /** What `t(key)` returns. */
  function Translate(tables: map<string, Value>, language: Option<string>, key: string): (r: string)
    ensures var path := Strings.Split(key, ".");
      var selected := Walk(Table(tables, language), path);
      var english := Walk(Table(tables, Some("en")), path);
      (selected.Some? && selected.value.Str? ==> r == selected.value.s)
      && (!(selected.Some? && selected.value.Str?) && english.Some? && english.value.Str? ==> r == english.value.s)
      && (!(selected.Some? && selected.value.Str?) && !(english.Some? && english.value.Str?) ==> r == key)
  {
    var path := Strings.Split(key, ".");
    match Walk(Table(tables, language), path)
    case Some(Str(s)) => s
    case _ =>
      match Walk(Table(tables, Some("en")), path)
      case Some(Str(s)) => s
      case _ => key
  }

  /** `t`, with its two loops over the key's segments. */
  method T(tables: map<string, Value>, language: Option<string>, key: string) returns (r: string)
    ensures r == Translate(tables, language, key)
  {
    var keys := Strings.Split(key, ".");
    var value := Table(tables, language);
    var found := true;
    for i := 0 to |keys|
      invariant found ==> Walk(Table(tables, language), keys) == Walk(value, keys[i..])
      invariant !found ==> Walk(Table(tables, language), keys) == None
    {
      if !found {
        break;
      }
      assert keys[i..][0] == keys[i] && keys[i..][1..] == keys[i + 1..];
      if CanStep(value, keys[i]) {
        value := value.fields[keys[i]];
      } else {
        found := false;
      }
    }
    if found {
      assert keys[|keys|..] == [];
    }
    if found && value.Str? {
      return value.s;
    }
    var fallbackValue := Table(tables, Some("en"));
    for i := 0 to |keys|
      invariant Walk(Table(tables, Some("en")), keys) == Walk(fallbackValue, keys[i..])
    {
      assert keys[i..][0] == keys[i] && keys[i..][1..] == keys[i + 1..];
      if CanStep(fallbackValue, keys[i]) {
        fallbackValue := fallbackValue.fields[keys[i]];
      } else {
        return key;
      }
    }
    assert keys[|keys|..] == [];
    return if fallbackValue.Str? then fallbackValue.s else key;
  }

  /** With no language selected (and no `"undefined"` table) every key is
      looked up in English. */
  lemma NoLanguageMeansEnglish(tables: map<string, Value>, key: string)
    requires "undefined" !in tables
    ensures Translate(tables, None, key) == Translate(tables, Some("en"), key)
  {
    var path := Strings.Split(key, ".");
    assert path != [];
    assert Walk(Undefined, path) == None;
  }

  /** A key whose first segments lead to a string in the selected table is
      not found there (a string has no segments), so longer keys through it
      fall back to English. */
  lemma ThroughStringFallsBack(v: Value, p: seq<string>, q: seq<string>)
    requires Walk(v, p).Some? && Walk(v, p).value.Str? && q != []
    ensures Walk(v, p + q) == None
  {
    WalkAppend(v, p, q);
  }
}
