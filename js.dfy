/**
 * JavaScript values as they arrive from JSON bodies and loosely typed props:
 * the truthiness the app branches on, `a || b`, property reads (which throw on
 * `null`/`undefined`), optional chaining, `Array.isArray` and the string
 * conversion `Array.prototype.join` applies to its elements.
 */
module Js {
  import opened Wrappers
  import Strings

  /** Numbers are integers here; fractional numbers and `NaN` are not modelled. */
  datatype Value =
    | Undefined
    | Null
    | Bool(b: bool)
    | Num(n: int)
    | Str(s: string)
    | Arr(items: seq<Value>)
    | Obj(fields: map<string, Value>)

  /** `!!v`: `undefined`, `null`, `false`, `0` and `""` are falsy. */
  predicate Truthy(v: Value) {
    match v
    case Undefined => false
    case Null => false
    case Bool(b) => b
    case Num(n) => n != 0
    case Str(s) => s != ""
    case Arr(_) => true
    case Obj(_) => true
  }

  predicate Nullish(v: Value) {
    v.Undefined? || v.Null?
  }

  /** `a || b`: the first operand when it is truthy, else the second. */
  function Or(a: Value, b: Value): (r: Value)
    ensures Truthy(r) <==> Truthy(a) || Truthy(b)
    ensures r == a || r == b
    ensures Truthy(a) ==> r == a
  {
    if Truthy(a) then a else b
  }

  /** `v.key` for a value that is not `null` or `undefined`: an own field of an
      object, the `length` of an array or string, otherwise `undefined`. */
  function Prop(v: Value, key: string): (r: Value)
    ensures v.Obj? && key !in v.fields ==> r == Undefined
    ensures !v.Obj? && !v.Arr? && !v.Str? ==> r == Undefined
  {
    match v
    case Obj(fields) => if key in fields then fields[key] else Undefined
    case Arr(items) => if key == "length" then Num(|items|) else Undefined
    case Str(s) => if key == "length" then Num(|s|) else Undefined
    case _ => Undefined
  }

  /** `m.k` on a record of JSON values: `undefined` when there is no such field. */
  function FieldOf(m: map<string, Value>, k: string): Value {
    if k in m then m[k] else Undefined
  }

  /** `v.key`: a TypeError (`None`) when `v` is `null` or `undefined`. */
  function Get(v: Value, key: string): (r: Option<Value>)
    ensures r.None? <==> Nullish(v)
  {
    if Nullish(v) then None else Some(Prop(v, key))
  }

  /** `v?.key`: `undefined` when `v` is `null` or `undefined`. */
  function Field(v: Value, key: string): (r: Value)
    ensures Nullish(v) ==> r == Undefined
  {
    if Nullish(v) then Undefined else Prop(v, key)
  }

  /** `Array.isArray(v)`. */
  predicate IsArray(v: Value) {
    v.Arr?
  }

  /** How `Array.prototype.join` writes one element (`null` and `undefined`
      become the empty string, nested arrays are joined with commas). */
  function Text(v: Value): string
    decreases v
  {
    match v
    case Undefined => ""
    case Null => ""
    case Bool(b) => if b then "true" else "false"
    case Num(n) => Strings.IntToString(n)
    case Str(s) => s
    case Arr(items) => Strings.Join(seq(|items|, i requires 0 <= i < |items| => Text(items[i])), ",")
    case Obj(_) => "[object Object]"
  }

  /** `items.join(sep)`. */
  function JoinValues(items: seq<Value>, sep: string): (r: string)
    ensures (forall i :: 0 <= i < |items| ==> items[i].Str?) ==>
      r == Strings.Join(seq(|items|, i requires 0 <= i < |items| => items[i].s), sep)
  {
    var texts := seq(|items|, i requires 0 <= i < |items| => Text(items[i]));
    assert (forall i :: 0 <= i < |items| ==> items[i].Str?) ==>
      texts == seq(|items|, i requires 0 <= i < |items| => items[i].s);
    Strings.Join(texts, sep)
  }

  /** `String(v)` / `v.toString()` for a value that is not `null` or `undefined`. */
  function ToText(v: Value): (r: string)
    requires !Nullish(v)
    ensures v.Str? ==> r == v.s
  {
    Text(v)
  }
}
