/** JavaScript values as the request handlers see them, and the Option/Result
    wrappers used for every call whose outcome comes from outside the model. */
module Values {

  datatype Option<+T> = None | Some(value: T)

  /** A successful value, or the error a JavaScript `throw` would carry. */
  datatype Result<+T, +E> = Ok(value: T) | Fail(error: E)

  /** The JavaScript values that reach the handlers: JSON scalars, `undefined`
      for a missing property, and `Date` objects (as milliseconds since the epoch).
      Numbers are integers here; floating point is not modelled. */
  datatype Value =
    | Undefined
    | Null
    | Bool(b: bool)
    | Num(n: int)
    | Str(s: string)
    | Date(ms: int)

  /** A plain object with named properties, as stored by the database or
      produced by the token codec. */
  type Record = map<string, Value>

  /** JavaScript truthiness: `undefined`, `null`, `false`, `0` and `''` are falsy. */
  predicate Truthy(v: Value)
  {
    match v
    case Undefined => false
    case Null => false
    case Bool(b) => b
    case Num(n) => n != 0
    case Str(s) => s != ""
    case Date(_) => true
  }

  /** Property access `obj[key]`: a missing property reads as `undefined`. */
  function Get(obj: Record, key: string): (v: Value)
    ensures key !in obj ==> v == Undefined
    ensures key in obj ==> v == obj[key]
  {
    if key in obj then obj[key] else Undefined
  }

  /** True if `s` begins with `prefix` (`String.prototype.startsWith`). */
  predicate StartsWith(s: string, prefix: string)
  {
    |prefix| <= |s| && s[..|prefix|] == prefix
  }

  lemma PrefixUnderPrefix(p: string, s: string, q: string)
    requires StartsWith(s, q)
    ensures StartsWith(p + s, p + q)
  {
    assert (p + s)[..|p + q|] == p + q;
  }

  /** True if `s` ends with `suffix` (`String.prototype.endsWith`). */
  predicate EndsWith(s: string, suffix: string)
  {
    |suffix| <= |s| && s[|s| - |suffix|..] == suffix
  }

  /** The decimal digits of a natural number, most significant first. */
  function NatText(n: nat): (r: string)
    ensures |r| > 0
    ensures forall i :: 0 <= i < |r| ==> '0' <= r[i] <= '9'
    decreases n
  {
    var d := ['0' + (n % 10) as char];
    if n < 10 then d else NatText(n / 10) + d
  }

  /** `String(v)`, as a template literal `${v}` renders it. A `Date` renders as
      its millisecond count here. */
  function ToText(v: Value): (r: string)
    ensures v.Str? ==> r == v.s
    ensures v.Bool? ==> r == (if v.b then "true" else "false")
  {
    match v
    case Undefined => "undefined"
    case Null => "null"
    case Bool(b) => if b then "true" else "false"
    case Num(n) => if n < 0 then "-" + NatText(-n) else NatText(n)
    case Str(s) => s
    case Date(ms) => if ms < 0 then "-" + NatText(-ms) else NatText(ms)
  }

  /** `receiver.startsWith(prefix)` where `receiver` holds `v`: a string answers,
      `undefined` and `null` throw the engine's TypeError for a property read,
      any other value throws the TypeError for calling a non-function. The
      error carries the TypeError's message. */
  function CallStartsWith(v: Value, receiver: string, prefix: string): (r: Result<bool, string>)
    ensures r.Ok? <==> v.Str?
    ensures v.Str? ==> r.value == StartsWith(v.s, prefix)
    ensures r.Fail? ==> r.error != ""
  {
    match v
    case Str(s) => Ok(StartsWith(s, prefix))
    case Undefined => Fail("Cannot read properties of undefined (reading 'startsWith')")
    case Null => Fail("Cannot read properties of null (reading 'startsWith')")
    case _ => Fail(receiver + ".startsWith is not a function")
  }

  /** A JavaScript value as handed to `res.json`: scalars, arrays and plain objects. */
  datatype Json =
    | JsonScalar(v: Value)
    | JsonArray(items: seq<Json>)
    | JsonObject(fields: map<string, Json>)

  function RecordJson(r: Record): (j: Json)
    ensures j.JsonObject? && j.fields.Keys == r.Keys
    ensures forall k :: k in r ==> j.fields[k] == JsonScalar(r[k])
  {
    JsonObject(map k | k in r :: JsonScalar(r[k]))
  }

  function RecordsJson(rs: seq<Record>): (j: Json)
    ensures j.JsonArray? && |j.items| == |rs|
    ensures forall i :: 0 <= i < |rs| ==> j.items[i] == RecordJson(rs[i])
  {
    JsonArray(seq(|rs|, i requires 0 <= i < |rs| => RecordJson(rs[i])))
  }
}
