/** JavaScript values as the telemetry code sees them after JSON.parse or as
    request bodies: the parts of JavaScript semantics the core relies on
    (truthiness, property lookup, `startsWith`, `toUpperCase`). */
module JsValues {

  datatype Option<+T> = None | Some(value: T)

  /** A JSON-shaped JavaScript value. Numbers are integers: fractional
      numbers, NaN and infinities do not occur in this model. */
  datatype JsValue =
    | JUndefined
    | JNull
    | JBool(b: bool)
    | JNum(n: int)
    | JStr(s: string)
    | JArray(items: seq<JsValue>)
    | JObject(fields: map<string, JsValue>)

  /** JavaScript truthiness: `undefined`, `null`, `false`, `0` and `""` are
      falsy; every other value, empty arrays and objects included, is truthy. */
  predicate Truthy(v: JsValue)
  {
    match v
    case JUndefined => false
    case JNull => false
    case JBool(b) => b
    case JNum(n) => n != 0
    case JStr(s) => s != ""
    case JArray(_) => true
    case JObject(_) => true
  }

  /** Property lookup `v.key` for a named (non-index) key. Only objects
      carry named own properties here; on every other value the lookup
      yields `undefined`. (On `null` and `undefined` JavaScript throws
      instead; every caller in the core treats that exactly like a falsy
      result, as `Consumer.NullRecordRejected` shows for the consumer.) */
  function Get(v: JsValue, key: string): (r: JsValue)
    ensures !v.JObject? ==> r == JUndefined
    ensures v.JObject? ==> (r != JUndefined <==> key in v.fields && v.fields[key] != JUndefined)
  {
    match v
    case JObject(m) => if key in m then m[key] else JUndefined
    case _ => JUndefined
  }

  /** Index lookup `v[0]`: the first element of an array, the first
      character of a string, the property named "0" of an object. */
  function Index0(v: JsValue): (r: JsValue)
    ensures v.JArray? && v.items != [] ==> r == v.items[0]
    ensures v.JArray? && v.items == [] ==> r == JUndefined
    ensures v.JStr? ==> (Truthy(r) <==> v.s != "")
  {
    match v
    case JArray(items) => if items == [] then JUndefined else items[0]
    case JStr(s) => if s == "" then JUndefined else JStr([s[0]])
    case JObject(m) => if "0" in m then m["0"] else JUndefined
    case _ => JUndefined
  }

  /** `s.startsWith(prefix)`. */
  predicate StartsWith(s: string, prefix: string)
  {
    |prefix| <= |s| && s[..|prefix|] == prefix
  }

  function UpperChar(c: char): (u: char)
    ensures 'a' <= c <= 'z' ==> 'A' <= u <= 'Z' && u as int == c as int - 32
    ensures !('a' <= c <= 'z') ==> u == c
  {
    if 'a' <= c <= 'z' then (c as int - 32) as char else c
  }

  /** `s.toUpperCase()` restricted to the ASCII letters a-z; every other
      character is left as it is. */
  function ToUpperAscii(s: string): (r: string)
    ensures |r| == |s|
    ensures forall i :: 0 <= i < |s| ==> r[i] == UpperChar(s[i])
  {
    if s == [] then [] else [UpperChar(s[0])] + ToUpperAscii(s[1..])
  }

  predicate NoLowerAscii(s: string)
  {
    forall i :: 0 <= i < |s| ==> !('a' <= s[i] <= 'z')
  }

  /** Upper-casing removes every lower-case ASCII letter and is idempotent. */
  lemma {:induction false} ToUpperAsciiNormalises(s: string)
    ensures NoLowerAscii(ToUpperAscii(s))
    ensures ToUpperAscii(ToUpperAscii(s)) == ToUpperAscii(s)
  {
    var u := ToUpperAscii(s);
    assert forall i :: 0 <= i < |u| ==> UpperChar(u[i]) == u[i];
    assert ToUpperAscii(u) == u;
  }
}
