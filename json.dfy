/** JavaScript values as the extension sees them in parsed OData responses
    (`JSON.parse` output, plus `Date` objects), with the few language rules the
    core depends on: truthiness, `typeof … === 'object'`, property lookup,
    `Object.entries` and `String(value)`. */
module Json {
  import opened Wrappers
  import opened Text
  import opened Records

  /** A JavaScript value. Numbers are integral; object keys are kept in
      enumeration order. A `Date` carries the text `String(date)` yields. */
  datatype Json =
    | JNull
    | JBool(b: bool)
    | JNum(n: int)
    | JStr(s: string)
    | JArr(elems: seq<Json>)
    | JObj(fields: seq<(string, Json)>)
    | JDate(text: string)

  /** The result of `parseInt`: a number, or NaN. */
  datatype JsNumber = NaN | Finite(value: int)

  /** JavaScript's ToBoolean: `null`, `false`, `0` and `""` are falsy; every object is truthy. */
  predicate Truthy(v: Json) {
    match v
    case JNull => false
    case JBool(b) => b
    case JNum(n) => n != 0
    case JStr(s) => s != ""
    case _ => true
  }

  /** `typeof v === 'object' && v !== null`: arrays, plain objects and dates. */
  predicate IsObject(v: Json) {
    v.JArr? || v.JObj? || v.JDate?
  }

  /** `v[k]` for a non-null value: own properties of plain objects; the OData
      keys the core reads are never properties of arrays, strings, numbers or dates. */
  function Get(v: Json, k: string): Option<Json> {
    if v.JObj? then Lookup(v.fields, k) else None
  }

  /** `v[k]` is truthy. */
  predicate HasTruthy(v: Json, k: string) {
    var g := Get(v, k); g.Some? && Truthy(g.value)
  }

  /** `Object.entries(v)` for a value with `typeof v === 'object'`: array
      elements are keyed by their index. */
  function Entries(v: Json): (r: seq<(string, Json)>)
    ensures v.JObj? ==> r == v.fields
    ensures v.JArr? ==> |r| == |v.elems| && forall i :: 0 <= i < |r| ==> r[i] == (NatToString(i), v.elems[i])
    ensures !v.JObj? && !v.JArr? ==> r == []
  {
    match v
    case JObj(fs) => fs
    case JArr(es) => seq(|es|, i requires 0 <= i < |es| => (NatToString(i), es[i]))
    case _ => []
  }

  /** The values of `Entries(v)` are structurally smaller than `v`. */
  lemma EntriesSmaller(v: Json, i: int)
    requires 0 <= i < |Entries(v)|
    ensures Entries(v)[i].1 < v
  {
    match v
    case JObj(fs) =>
      assert fs[i].1 < fs[i];
    case JArr(es) =>
      assert Entries(v)[i].1 == es[i];
  }

  /** `String(v)` (also what a template literal `${v}` prints). */
  function JsString(v: Json): string
    decreases v, 1
  {
    match v
    case JNull => "null"
    case JBool(b) => if b then "true" else "false"
    case JNum(n) => IntToString(n)
    case JStr(s) => s
    case JArr(es) => JoinElements(es)
    case JObj(_) => "[object Object]"
    case JDate(t) => t
  }

  /** `Array.prototype.join(',')`: `null` elements print as the empty string. */
  function JoinElements(es: seq<Json>): string
    decreases es, 0
  {
    if es == [] then ""
    else
      var head := if es[0].JNull? then "" else JsString(es[0]);
      if |es| == 1 then head else head + "," + JoinElements(es[1..])
  }

  /** A property value is structurally smaller than its object. */
  lemma {:induction false} LookupSmaller(fs: seq<(string, Json)>, k: string)
    requires Lookup(fs, k).Some?
    ensures Lookup(fs, k).value < JObj(fs)
  {
    var i :| 0 <= i < |fs| && fs[i].0 == k && Lookup(fs, k).value == fs[i].1;
    assert fs[i] in fs;
  }
}
