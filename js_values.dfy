/** The JavaScript values that `response.json()` can produce, with the three operations
    the adapters apply to them: truthiness (`!x`, `x || y`), property access (`x.name`,
    `x[0]`, which throws on `null` and `undefined`) and conversion to a string
    (`new Error(x)`). Numbers are integers here. */
module JsValues {
  import opened Strings

  datatype Value =
    | Undefined
    | Null
    | Bool(b: bool)
    | Num(n: int)
    | Str(s: string)
    | Arr(items: seq<Value>)
    | Obj(fields: map<string, Value>)

  /** `undefined` and `null`: the values whose property access throws a TypeError. */
  predicate IsNullish(v: Value) {
    v.Undefined? || v.Null?
  }

  /** ECMAScript ToBoolean on the values above. */
  predicate Truthy(v: Value) {
    match v
    case Undefined => false
    case Null => false
    case Bool(b) => b
    case Num(n) => n != 0
    case Str(s) => s != ""
    case Arr(_) => true
    case Obj(_) => true
  }

  lemma TruthyIsNotNullish(v: Value)
    ensures Truthy(v) ==> !IsNullish(v)
  {
  }

  /** `v.name` for a property name that is not an array index. Arrays and strings
      have `length`; no other property of the primitive wrappers or of arrays is
      read by the extension. */
  function Get(v: Value, name: string): (r: Value)
    requires !IsNullish(v)
    ensures v.Obj? && name in v.fields ==> r == v.fields[name]
    ensures v.Obj? ==> (r.Undefined? <==> name !in v.fields || v.fields[name].Undefined?)
    ensures v.Arr? && name == "length" ==> r == Num(|v.items|)
    ensures v.Str? && name == "length" ==> r == Num(|v.s|)
    ensures !v.Obj? && name != "length" ==> r == Undefined
  {
    match v
    case Obj(fields) => if name in fields then fields[name] else Undefined
    case Arr(items) => if name == "length" then Num(|items|) else Undefined
    case Str(s) => if name == "length" then Num(|s|) else Undefined
    case _ => Undefined
  }

  /** `v[i]`: an element of an array, a one-character string of a string, the
      property named by the decimal index on an object, `undefined` otherwise. */
  function Index(v: Value, i: nat): (r: Value)
    requires !IsNullish(v)
    ensures v.Arr? ==> (i < |v.items| ==> r == v.items[i]) && (i >= |v.items| ==> r == Undefined)
    ensures v.Str? ==> (i < |v.s| ==> r == Str([v.s[i]])) && (i >= |v.s| ==> r == Undefined)
    ensures v.Bool? || v.Num? ==> r == Undefined
  {
    match v
    case Arr(items) => if i < |items| then items[i] else Undefined
    case Str(s) => if i < |s| then Str([s[i]]) else Undefined
    case Obj(fields) => var key := NatToString(i); if key in fields then fields[key] else Undefined
    case _ => Undefined
  }

  /** ECMAScript ToString, as `new Error(v)` applies it to its argument. */
  function ToString(v: Value): (r: string)
    ensures v.Str? ==> r == v.s
    decreases v, 1
  {
    match v
    case Undefined => "undefined"
    case Null => "null"
    case Bool(b) => if b then "true" else "false"
    case Num(n) => IntToString(n)
    case Str(s) => s
    case Arr(items) => JoinItems(items)
    case Obj(_) => "[object Object]"
  }

  /** Array.prototype.join with ",", which writes `null` and `undefined` as "". */
  function JoinItems(items: seq<Value>): string
    decreases items, 0
  {
    if items == [] then ""
    else
      var head := if IsNullish(items[0]) then "" else ToString(items[0]);
      if |items| == 1 then head else head + "," + JoinItems(items[1..])
  }
}
