/** The slice of JavaScript value semantics the cache relies on: values,
    truthiness, the `||` defaulting idiom, property reads and property keys. */
module Js {
  import opened Wrappers

  /** A JavaScript value as it travels in an event payload. Objects and arrays
      are compared by value here; the source compares them by reference. */
  datatype Json =
    | Undefined
    | Null
    | Bool(b: bool)
    | Num(n: int)
    | Str(s: string)
    | Arr(elems: seq<Json>)
    | Obj(fields: map<string, Json>)

  /** A record built by a record constructor: an object's own properties. */
  type Record = map<string, Json>

  /** An object whose values are strings (`Dict<string>`), keys in insertion order. */
  type Dict = seq<(string, string)>

  predicate Nullish(j: Json) {
    j.Undefined? || j.Null?
  }

  /** JavaScript truthiness: `undefined`, `null`, `false`, `0` and `""` are
      falsy; every object and array is truthy. */
  predicate Truthy(j: Json) {
    match j
    case Undefined => false
    case Null => false
    case Bool(b) => b
    case Num(n) => n != 0
    case Str(s) => s != ""
    case Arr(_) => true
    case Obj(_) => true
  }

  /** `j[k]`. Reading a property of `null` or `undefined` throws, so the
      caller must rule those out; a missing property, or any property of a
      primitive, reads as `undefined`. */
  function Get(j: Json, k: string): (v: Json)
    requires !Nullish(j)
    ensures j.Obj? && k in j.fields ==> v == j.fields[k]
    ensures !(j.Obj? && k in j.fields) ==> v.Undefined?
  {
    if j.Obj? && k in j.fields then j.fields[k] else Undefined
  }

  /** `j[k]` read at its declared type `string | undefined`. */
  function StrAt(j: Json, k: string): (o: Option<string>)
    requires !Nullish(j)
    ensures o.Some? <==> Get(j, k).Str?
    ensures o.Some? ==> Get(j, k) == Str(o.value)
  {
    match Get(j, k)
    case Str(s) => Some(s)
    case _ => None
  }

  /** `j[k]` read at its declared type `number | undefined`. */
  function IntAt(j: Json, k: string): (o: Option<int>)
    requires !Nullish(j)
    ensures o.Some? <==> Get(j, k).Num?
    ensures o.Some? ==> Get(j, k) == Num(o.value)
  {
    match Get(j, k)
    case Num(n) => Some(n)
    case _ => None
  }

  /** The own property `id` of a record (`undefined` when it has none). */
  function IdOf(r: Record): Json {
    if "id" in r then r["id"] else Undefined
  }

  /** An optional string as a JavaScript value. */
  function StrOrUndefined(o: Option<string>): (j: Json)
    ensures o.None? <==> j.Undefined?
    ensures o.Some? ==> j == Str(o.value)
  {
    match o
    case Some(s) => Str(s)
    case None => Undefined
  }

  function BoolOrUndefined(o: Option<bool>): (j: Json)
    ensures o.None? <==> j.Undefined?
    ensures o.Some? ==> j == Bool(o.value)
  {
    match o
    case Some(b) => Bool(b)
    case None => Undefined
  }

  /** `s || d` for a string that may be `undefined`: both `undefined` and
      `""` fall through to `d`. */
  function OrStr(s: Option<string>, d: string): (r: string)
    ensures s.Some? && s.value != "" ==> r == s.value
    ensures s.None? || s.value == "" ==> r == d
  {
    if s.Some? && s.value != "" then s.value else d
  }

  /** Truthiness of a number that may be `undefined`. */
  predicate TruthyInt(n: Option<int>) {
    n.Some? && n.value != 0
  }

  /** Truthiness of a boolean that may be `undefined`. */
  predicate TruthyBool(b: Option<bool>) {
    b == Some(true)
  }

  /** The property key a computed key `[k]` produces: `undefined` becomes the
      string "undefined". */
  function KeyOf(k: Option<string>): (key: string)
    ensures k.Some? ==> key == k.value
    ensures k.None? ==> key == "undefined"
  {
    match k
    case Some(s) => s
    case None => "undefined"
  }

  predicate IsDigit(c: char) {
    '0' <= c <= '9'
  }

  function DigitChar(d: int): (c: char)
    requires 0 <= d < 10
    ensures IsDigit(c)
  {
    "0123456789"[d]
  }

  /** Decimal rendering of a natural number, as template literals print it. */
  function NatToString(n: nat): (s: string)
    ensures |s| > 0
    ensures forall i :: 0 <= i < |s| ==> IsDigit(s[i])
    decreases n
  {
    if n < 10 then [DigitChar(n)] else NatToString(n / 10) + [DigitChar(n % 10)]
  }

  /** Decimal rendering of an integer, with a leading '-' when negative. */
  function IntToString(n: int): (s: string)
    ensures |s| > 0
    ensures forall i :: 0 <= i < |s| ==> IsDigit(s[i]) || s[i] == '-'
    ensures IsDigit(s[0]) <==> n >= 0
  {
    if n >= 0 then NatToString(n) else "-" + NatToString(-n)
  }
}
