/**
 * Parsed JSON values, as `response.json()` hands them to the client, with the
 * few JavaScript operations the client applies to them: property access,
 * `[0]`, truthiness and conversion to a string.
 */
module Json {
  import opened Optional
  import Decimal

  /** Numbers are integral here; fractional JSON numbers are not modelled. */
  datatype Json =
    | Null
    | Bool(b: bool)
    | Num(n: int)
    | Str(s: string)
    | Arr(items: seq<Json>)
    | Obj(fields: map<string, Json>)

  /** `v.key` on a value that is not null; `None` stands for `undefined`. */
  function Property(v: Json, key: string): (r: Option<Json>)
    requires v != Null
    ensures r.Some? <==> v.Obj? && key in v.fields
    ensures r.Some? ==> r.value == v.fields[key]
  {
    match v
    case Obj(fields) => if key in fields then Some(fields[key]) else None
    case _ => None
  }

  /** `v[0]` on a value that is not null: the first element of an array, the first character of a string, or property "0" of an object. */
  function First(v: Json): (r: Option<Json>)
    requires v != Null
    ensures v.Arr? ==> r == (if |v.items| > 0 then Some(v.items[0]) else None)
    ensures v.Str? ==> r == (if |v.s| > 0 then Some(Str([v.s[0]])) else None)
    ensures v.Obj? ==> r == Property(v, "0")
    ensures v.Bool? || v.Num? ==> r == None
  {
    match v
    case Arr(items) => if |items| > 0 then Some(items[0]) else None
    case Str(s) => if |s| > 0 then Some(Str([s[0]])) else None
    case Obj(_) => Property(v, "0")
    case _ => None
  }

  /** JavaScript truthiness: every array and object is truthy. */
  function Truthy(v: Json): (t: bool)
    ensures !t <==> v in {Null, Bool(false), Num(0), Str("")}
  {
    match v
    case Null => false
    case Bool(b) => b
    case Num(n) => n != 0
    case Str(s) => s != ""
    case Arr(_) => true
    case Obj(_) => true
  }

  /** `String(v)`, which `new Error(v)` uses for its message. */
  function ToText(v: Json): (r: string)
    ensures v.Str? ==> r == v.s
    ensures v.Num? ==> Decimal.ParseInt(r) == Some(v.n)
    ensures v.Obj? ==> r == "[object Object]"
    decreases v, 1
  {
    match v
    case Null => "null"
    case Bool(b) => if b then "true" else "false"
    case Num(n) => Decimal.ParseIntToString(n); Decimal.IntToString(n)
    case Str(s) => s
    case Arr(items) => JoinItems(v, items)
    case Obj(_) => "[object Object]"
  }

  /** `Array.prototype.join(",")` on the elements of `whole`: null elements are written as "". */
  function JoinItems(ghost whole: Json, items: seq<Json>): string
    requires forall i :: 0 <= i < |items| ==> items[i] < whole
    decreases whole, 0, |items|
  {
    if items == [] then ""
    else
      var head := if items[0] == Null then "" else ToText(items[0]);
      if |items| == 1 then head else head + "," + JoinItems(whole, items[1..])
  }
}
