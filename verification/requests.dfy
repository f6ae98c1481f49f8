/** The parts of an inbound request the worker reads. */
module Requests {
  import opened Options
  import opened JsValues

  /** The edge platform's metadata record attached to the request (`request.cf`). */
  datatype Metadata = Metadata(
    continent: JsValue,
    asn: JsValue,
    country: JsValue,
    tlsVersion: JsValue,
    city: JsValue,
    timezone: JsValue,
    colo: JsValue,
    region: JsValue,
    httpProtocol: JsValue,
    regionCode: JsValue,
    asOrganization: JsValue)

  /**
   A request: the URL's path, the metadata record, and the two headers the worker reads
   (`cf-connecting-ip` and `user-agent`), each absent or holding a string.
   */
  datatype Request = Request(
    path: string,
    cf: Metadata,
    connectingIp: Option<string>,
    userAgent: Option<string>)

  /** `headers.get("user-agent") || ''`: a missing (or empty) header becomes the empty string. */
  function UserAgentOf(req: Request): (ua: string)
    ensures req.userAgent.None? ==> ua == ""
    ensures req.userAgent.Some? ==> ua == req.userAgent.value
  {
    match req.userAgent
    case Some(s) => s
    case None => ""
  }

  /** The connecting address as the handlers see it: `null` when the header is absent. */
  function ClientIp(req: Request): (ip: JsValue)
    ensures ip.Null? <==> req.connectingIp.None?
    ensures req.connectingIp.Some? ==> ip == Str(req.connectingIp.value)
  {
    FromHeader(req.connectingIp)
  }
}
