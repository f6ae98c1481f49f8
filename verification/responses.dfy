/** The observable parts of a `Response`: status, `Content-Type`, the one custom header, and the body. */
module Responses {
  import opened Options

  datatype Response = Response(
    status: int,
    contentType: Option<string>,
    customHeader: Option<(string, string)>,
    body: Option<string>)

  const TextPlain: string := "text/plain;charset=UTF-8"
  const TextHtml: string := "text/html;charset=UTF-8"

  const ServiceHeader: string := "X-Service"
  const ServiceName: string := "IP-Info-Worker"
  const DataTypeHeader: string := "X-Data-Type"
}
