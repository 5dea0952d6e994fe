/**
 * JSON values as the browser and the Python clients see them after
 * parsing a response body, with the few JavaScript and Python operations
 * the clients apply to them: truthiness, property lookup, `String(v)`,
 * `Number(v)` and Python's `str(v)`.
 */
module Json {
  import opened Wrappers
  import opened Text
  import opened Numbers

  /**
   * A parsed JSON value. Integers and other numbers are kept apart because
   * Python parses them to `int` and `float`; `JFloat(m, e)` is m × 10^e.
   * An object is its members in document order.
   */
  datatype Json =
    | JNull
    | JBool(b: bool)
    | JInt(i: int)
    | JFloat(m: int, e: int)
    | JStr(s: string)
    | JArr(items: seq<Json>)
    | JObj(fields: seq<(string, Json)>)

  /** No key occurs twice, as in every object or dict a JSON parser builds. */
  predicate DistinctKeys(fields: seq<(string, Json)>)
  {
    forall i, j :: 0 <= i < j < |fields| ==> fields[i].0 != fields[j].0
  }

  function Keys(fields: seq<(string, Json)>): (ks: seq<string>)
    ensures |ks| == |fields|
    ensures forall i :: 0 <= i < |fields| ==> ks[i] == fields[i].0
  {
    if fields == [] then [] else [fields[0].0] + Keys(fields[1..])
  }

  /** The value stored under key, if the key is present. */
  function Lookup(fields: seq<(string, Json)>, key: string): (r: Option<Json>)
    ensures r.None? <==> key !in Keys(fields)
    ensures r.Some? ==> exists i :: 0 <= i < |fields| && fields[i] == (key, r.value)
  {
    if fields == [] then None
    else if fields[0].0 == key then Some(fields[0].1)
    else Lookup(fields[1..], key)
  }

  /** With distinct keys, the lookup finds the member at the key's position. */
  lemma {:induction false} LookupAt(fields: seq<(string, Json)>, i: nat)
    requires DistinctKeys(fields)
    requires i < |fields|
    ensures Lookup(fields, fields[i].0) == Some(fields[i].1)
  {
    if i > 0 {
      assert fields[0].0 != fields[i].0;
      var tail := fields[1..];
      assert DistinctKeys(tail) by {
        forall a, b | 0 <= a < b < |tail| ensures tail[a].0 != tail[b].0 {
          assert tail[a] == fields[a + 1] && tail[b] == fields[b + 1];
        }
      }
      LookupAt(tail, i - 1);
      assert tail[i - 1] == fields[i];
    }
  }

  /**
   * JavaScript's `v.key` on a parsed value, undefined (None) when there is
   * no such own property; only an object has properties the clients read.
   */
  function Prop(v: Json, key: string): (r: Option<Json>)
    ensures !v.JObj? ==> r.None?
  {
    if v.JObj? then Lookup(v.fields, key) else None
  }

  /** JavaScript truthiness: false, 0, "" and null are falsy; every object and array is truthy. */
  predicate JsTruthy(v: Json)
  {
    match v
    case JNull => false
    case JBool(b) => b
    case JInt(i) => i != 0
    case JFloat(m, _) => m != 0
    case JStr(s) => s != ""
    case JArr(_) => true
    case JObj(_) => true
  }

  /** Truthiness of a value that may be undefined. */
  predicate JsTruthyOpt(v: Option<Json>)
  {
    v.Some? && JsTruthy(v.value)
  }

  /** JavaScript's `v ?? d`: d replaces undefined and null. */
  function Coalesce(v: Option<Json>, d: Json): (r: Json)
    ensures v.None? || v.value.JNull? ==> r == d
    ensures v.Some? && !v.value.JNull? ==> r == v.value
  {
    if v.None? || v.value.JNull? then d else v.value
  }

  /** JavaScript's value of a JSON number. */
  function NumberValue(v: Json): (r: Number)
    requires v.JInt? || v.JFloat?
    ensures r.Finite?
  {
    if v.JInt? then Finite(v.i as real) else Finite(Scaled(v.m, v.e))
  }

  /**
   * JavaScript's `String(v)`: numbers in their shortest text, arrays as
   * their elements' texts joined by commas (null elements give ""), every
   * other object as `[object Object]`.
   */
  function JsString(v: Json): (s: string)
    ensures v.JStr? ==> s == v.s
    ensures v.JObj? ==> s == "[object Object]"
    ensures v.JInt? && -JsPlainLimit < v.i < JsPlainLimit ==> s == IntText(v.i)
    ensures v.JInt? && v.i >= JsPlainLimit ==> 'e' in s
    decreases v
  {
    match v
    case JNull => "null"
    case JBool(b) => if b then "true" else "false"
    case JInt(i) =>
      if i >= JsPlainLimit then JsLargeIntegerText(i); JsNumberText(i, 0)
      else if -JsPlainLimit < i then JsIntegerText(i); JsNumberText(i, 0)
      else JsNumberText(i, 0)
    case JFloat(m, e) => JsNumberText(m, e)
    case JStr(s) => s
    case JArr(items) =>
      Join(seq(|items|, k requires 0 <= k < |items| => if items[k].JNull? then "" else JsString(items[k])), ",")
    case JObj(_) => "[object Object]"
  }

  /** `String(v)` where v may be undefined. */
  function JsStringOpt(v: Option<Json>): (s: string)
    ensures v.None? ==> s == "undefined"
    ensures v.Some? ==> s == JsString(v.value)
  {
    if v.None? then "undefined" else JsString(v.value)
  }

  /**
   * JavaScript's `Number(v)` where v may be undefined: NaN for undefined and
   * plain objects, 0 for null, 1 and 0 for booleans, a string parsed, an
   * array through its string.
   */
  function JsToNumber(v: Option<Json>): (n: Number)
    ensures v.None? ==> n == NaN
    ensures v.Some? && v.value.JNull? ==> n == Finite(0.0)
    ensures v.Some? && v.value.JStr? ==> n == JsStringToNumber(v.value.s)
  {
    if v.None? then NaN
    else
      match v.value
      case JNull => Finite(0.0)
      case JBool(b) => Finite(if b then 1.0 else 0.0)
      case JInt(_) => NumberValue(v.value)
      case JFloat(_, _) => NumberValue(v.value)
      case JStr(s) => JsStringToNumber(s)
      case JArr(_) => JsStringToNumber(JsString(v.value))
      case JObj(_) => NaN
  }

  /** Python truthiness: None, False, zero and empty strings, lists and dicts are falsy. */
  predicate PyTruthy(v: Json)
  {
    match v
    case JNull => false
    case JBool(b) => b
    case JInt(i) => i != 0
    case JFloat(m, _) => m != 0
    case JStr(s) => s != ""
    case JArr(items) => items != []
    case JObj(fields) => fields != []
  }

  /**
   * Python's `str(v)`: a string is itself, containers show their elements'
   * `repr`, and None, True and False their names.
   */
  function PyStr(v: Json): (s: string)
    ensures v.JStr? ==> s == v.s
    ensures v.JInt? ==> s == IntText(v.i)
    decreases v, 1
  {
    match v
    case JNull => "None"
    case JBool(b) => if b then "True" else "False"
    case JInt(i) => IntText(i)
    case JFloat(m, e) => PyFloatText(m, e)
    case JStr(s) => s
    case JArr(items) =>
      "[" + Join(seq(|items|, k requires 0 <= k < |items| => PyRepr(items[k])), ", ") + "]"
    case JObj(fields) =>
      "{" + Join(seq(|fields|, k requires 0 <= k < |fields| => "'" + fields[k].0 + "': " + PyRepr(fields[k].1)), ", ") + "}"
  }

  /** Python's `repr(v)`: a string in single quotes, everything else as `str`. */
  function PyRepr(v: Json): (s: string)
    ensures v.JStr? ==> s == "'" + v.s + "'"
    ensures !v.JStr? ==> s == PyStr(v)
    decreases v, 2
  {
    if v.JStr? then "'" + v.s + "'" else PyStr(v)
  }
}
