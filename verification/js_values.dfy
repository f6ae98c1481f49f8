/**
 The JavaScript values the worker reads from the platform's per-request metadata: a field
 is a string, or it is missing (`undefined`) or explicitly `null`. The metadata is passed
 through opaquely, so every field is a string here (a numeric `asn` included).
 */
module JsValues {
  import opened Options

  datatype JsValue = Undefined | Null | Str(s: string)

  /** What a template literal `${v}` inserts for `v`. */
  function Interpolate(v: JsValue): (r: string)
    ensures v.Str? ==> r == v.s
    ensures v.Undefined? ==> r == "undefined"
    ensures v.Null? ==> r == "null"
  {
    match v
    case Undefined => "undefined"
    case Null => "null"
    case Str(s) => s
  }

  /** The value `headers.get(name)` returns: a string, or `null` when the header is absent. */
  function FromHeader(h: Option<string>): (r: JsValue)
    ensures r.Str? <==> h.Some?
    ensures h.Some? ==> r.s == h.value
    ensures h.None? ==> r == Null
  {
    match h
    case Some(s) => Str(s)
    case None => Null
  }

  /**
   The body a `Response` is built with when `v` is passed as its first argument: `null`
   and `undefined` both give a response without a body.
   */
  function AsBody(v: JsValue): (r: Option<string>)
    ensures r.Some? <==> v.Str?
    ensures v.Str? ==> r.value == v.s
  {
    match v
    case Str(s) => Some(s)
    case _ => None
  }

  /** The filter the location string applies: neither `null`, `undefined` nor `""`. */
  predicate IsPresent(v: JsValue) {
    v.Str? && v.s != ""
  }
}
