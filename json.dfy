/**
 * JSON values as `JSON.parse` and Python's `json.loads` produce them, and
 * the two languages' notions of truthiness and property access. Parsing
 * itself is never modelled: wherever the sources parse text, the model
 * takes a parser `string -> Option<Json>` as a parameter (`None` when the
 * parser throws).
 */
module Json {
  import opened Base

  /** Numbers are reals: JavaScript doubles and Python ints/floats are not distinguished. */
  datatype Json =
    | JNull
    | JBool(b: bool)
    | JNum(n: real)
    | JStr(str: string)
    | JArr(items: seq<Json>)
    | JObj(fields: map<string, Json>)

  /**
   * JavaScript `v.k ?? ...` on a parsed value that is not `null`: a missing
   * property and a `null` one both give `None` (and so the default);
   * strings, numbers, booleans and arrays have none of the keys used here.
   */
  function Prop(v: Json, k: string): (r: Option<Json>)
    ensures r.Some? <==> v.JObj? && k in v.fields && v.fields[k] != JNull
    ensures r.Some? ==> r.value == v.fields[k]
  {
    if v.JObj? && k in v.fields && v.fields[k] != JNull then Some(v.fields[k]) else None
  }

  /** `v.k ?? d`. */
  function PropOr(v: Json, k: string, d: Json): Json {
    match Prop(v, k)
    case Some(x) => x
    case None => d
  }

  /** JavaScript truthiness (NaN is not modelled). */
  predicate JsTruthy(v: Json) {
    match v
    case JNull => false
    case JBool(b) => b
    case JNum(n) => n != 0.0
    case JStr(s) => s != ""
    case JArr(_) => true
    case JObj(_) => true
  }

  /** Python truthiness: empty containers are false. */
  predicate PyTruthy(v: Json) {
    match v
    case JNull => false
    case JBool(b) => b
    case JNum(n) => n != 0.0
    case JStr(s) => s != ""
    case JArr(xs) => xs != []
    case JObj(m) => m != map[]
  }

  /** JavaScript `a || b` where `a` is a property read (`None` when absent). */
  function OrElse(a: Option<Json>, b: Json): Json {
    if a.Some? && JsTruthy(a.value) then a.value else b
  }
}
