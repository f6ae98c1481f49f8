/**
 The worker's handlers: the main page (plain-text report for curl, HTML page otherwise),
 the two script snippets, the three raw-value endpoints, the no-content probe and the
 not-found reply.
 */
module Handlers {
  import opened Options
  import opened Strings
  import opened JsValues
  import opened Requests
  import opened Responses
  import Location
  import Classifier

  /** The operator line's value: "AS" + asn + " / " + asOrganization. */
  function Operator(cf: Metadata): (op: string)
    ensures var asn := Interpolate(cf.asn);
            var org := Interpolate(cf.asOrganization);
            |op| == 2 + |asn| + 3 + |org| &&
            op[..2] == "AS" && op[2..2 + |asn|] == asn &&
            op[2 + |asn|..5 + |asn|] == " / " && op[5 + |asn|..] == org
  {
    "AS" + Interpolate(cf.asn) + " / " + Interpolate(cf.asOrganization)
  }

  /** The composed location of the request's metadata. */
  function Address(cf: Metadata): (addr: string)
    ensures addr == "" <==> !IsPresent(cf.city) && !IsPresent(cf.region) && !IsPresent(cf.country)
  {
    Location.Compose(cf.city, cf.region, cf.country)
  }

  // Labels of the plain-text report, each followed by its value on the same line.
  const IpLabel: string := "    🔗 IP 地址:      "
  const AddressLabel: string := "    📍 地理位置:    "
  const OperatorLabel: string := "    🏢 运营商:      "
  const ColoLabel: string := "    ⚡ 网络节点:    "
  const TimezoneLabel: string := "    🕐 时区:        "
  const ContinentLabel: string := "    🌍 大陆:        "
  const TlsLabel: string := "    🔒 TLS 版本:    "
  const HttpLabel: string := "    📡 HTTP 协议:   "
  const UserAgentLabel: string := "    📱 用户代理:    "
  const Rule: string := "    =================="
  const BlankLine: string := "    "

  /** The lines of the curl report; the report is these lines joined with newlines. */
  function ReportLines(ip: JsValue, addr: string, cf: Metadata, ua: string): (lines: seq<string>)
    ensures |lines| == 18 && lines[0] == "" && lines[|lines| - 1] == BlankLine
  {
    [ "",
      "    🌐 IP 信息查询工具",
      Rule,
      BlankLine,
      IpLabel + Interpolate(ip),
      AddressLabel + addr,
      OperatorLabel + Operator(cf),
      ColoLabel + Interpolate(cf.colo),
      TimezoneLabel + Interpolate(cf.timezone),
      ContinentLabel + Interpolate(cf.continent),
      TlsLabel + Interpolate(cf.tlsVersion),
      HttpLabel + Interpolate(cf.httpProtocol),
      BlankLine,
      UserAgentLabel + ua,
      BlankLine,
      Rule,
      "    © 2025 IP 信息查询工具 | 基于 Cloudflare Workers",
      BlankLine ]
  }

  /** The plain-text report returned to curl. */
  function TextReport(ip: JsValue, addr: string, cf: Metadata, ua: string): (text: string)
    ensures |text| > 0 && text[0] == '\n'
    ensures |text| >= |BlankLine| && text[|text| - |BlankLine|..] == BlankLine
  {
    var lines := ReportLines(ip, addr, cf, ua);
    JoinEnds(lines, "\n");
    Join(lines, "\n")
  }

  /** Line `k` of the report occurs in the report. */
  lemma ReportShowsLine(ip: JsValue, addr: string, cf: Metadata, ua: string, k: nat, line: string)
    requires k < 18 && ReportLines(ip, addr, cf, ua)[k] == line
    ensures Contains(TextReport(ip, addr, cf, ua), line)
  {
    JoinContainsPart(ReportLines(ip, addr, cf, ua), "\n", k);
  }

  /**
   The report carries the connecting address, the location, the operator, the edge node
   and the raw user agent verbatim, each on its labelled line.
   */
  lemma TextReportEmbeds(ip: JsValue, addr: string, cf: Metadata, ua: string)
    ensures Contains(TextReport(ip, addr, cf, ua), IpLabel + Interpolate(ip))
    ensures Contains(TextReport(ip, addr, cf, ua), AddressLabel + addr)
    ensures Contains(TextReport(ip, addr, cf, ua), OperatorLabel + Operator(cf))
    ensures Contains(TextReport(ip, addr, cf, ua), ColoLabel + Interpolate(cf.colo))
    ensures Contains(TextReport(ip, addr, cf, ua), UserAgentLabel + ua)
  {
    var lines := ReportLines(ip, addr, cf, ua);
    assert lines[4] == IpLabel + Interpolate(ip) && lines[5] == AddressLabel + addr;
    assert lines[6] == OperatorLabel + Operator(cf) && lines[7] == ColoLabel + Interpolate(cf.colo);
    assert lines[13] == UserAgentLabel + ua;
    ReportShowsLine(ip, addr, cf, ua, 4, IpLabel + Interpolate(ip));
    ReportShowsLine(ip, addr, cf, ua, 5, AddressLabel + addr);
    ReportShowsLine(ip, addr, cf, ua, 6, OperatorLabel + Operator(cf));
    ReportShowsLine(ip, addr, cf, ua, 7, ColoLabel + Interpolate(cf.colo));
    ReportShowsLine(ip, addr, cf, ua, 13, UserAgentLabel + ua);
  }

  /** The report carries the time zone, continent, TLS and HTTP versions verbatim on their lines. */
  lemma TextReportShowsConnection(ip: JsValue, addr: string, cf: Metadata, ua: string)
    ensures Contains(TextReport(ip, addr, cf, ua), TimezoneLabel + Interpolate(cf.timezone))
    ensures Contains(TextReport(ip, addr, cf, ua), ContinentLabel + Interpolate(cf.continent))
    ensures Contains(TextReport(ip, addr, cf, ua), TlsLabel + Interpolate(cf.tlsVersion))
    ensures Contains(TextReport(ip, addr, cf, ua), HttpLabel + Interpolate(cf.httpProtocol))
  {
    var lines := ReportLines(ip, addr, cf, ua);
    assert lines[8] == TimezoneLabel + Interpolate(cf.timezone);
    assert lines[9] == ContinentLabel + Interpolate(cf.continent);
    assert lines[10] == TlsLabel + Interpolate(cf.tlsVersion);
    assert lines[11] == HttpLabel + Interpolate(cf.httpProtocol);
    ReportShowsLine(ip, addr, cf, ua, 8, TimezoneLabel + Interpolate(cf.timezone));
    ReportShowsLine(ip, addr, cf, ua, 9, ContinentLabel + Interpolate(cf.continent));
    ReportShowsLine(ip, addr, cf, ua, 10, TlsLabel + Interpolate(cf.tlsVersion));
    ReportShowsLine(ip, addr, cf, ua, 11, HttpLabel + Interpolate(cf.httpProtocol));
  }

  /** One row of the HTML info grid: a caption and its value, embedded without escaping. */
  function InfoItem(caption: string, value: string): (item: string) {
    "                <div class=\"info-item\">\n" +
    "                    <span class=\"info-label\">" + caption + "</span>\n" +
    ValueSpan(value) + "\n" +
    "                </div>"
  }

  /** The element that displays a value in the HTML page. */
  function ValueSpan(value: string): (span: string) {
    "                    <span class=\"info-value\">" + value + "</span>"
  }

  /** Fixed markup before the info grid: document head, stylesheet and page header (abstracted). */
  const HtmlHead: string := "\n    <!DOCTYPE html>\n    <html lang=\"zh-CN\">\n    <head>\n        <title>🌐 IP 信息查询工具</title>\n    </head>\n    <body>\n        <div class=\"container\">\n            <div class=\"info-grid\">\n"
  /** Fixed markup after the info grid: footer and closing tags (abstracted). */
  const HtmlTail: string := "\n            </div>\n        </div>\n    </body>\n    </html>"

  /** The captions and values of the HTML info grid, in display order. */
  function HtmlFields(ip: JsValue, addr: string, cf: Metadata): (fields: seq<(string, string)>)
    ensures |fields| == 8
  {
    [ ("🔗 IP 地址", Interpolate(ip)),
      ("📍 地理位置", addr),
      ("🏢 运营商", Operator(cf)),
      ("⚡ 网络节点", Interpolate(cf.colo)),
      ("🕐 时区", Interpolate(cf.timezone)),
      ("🌍 大陆", Interpolate(cf.continent)),
      ("🔒 TLS 版本", Interpolate(cf.tlsVersion)),
      ("📡 HTTP 协议", Interpolate(cf.httpProtocol)) ]
  }

  /** The rows of the HTML info grid, one per field. */
  function HtmlRows(ip: JsValue, addr: string, cf: Metadata): (rows: seq<string>)
    ensures |rows| == 8
  {
    var fields := HtmlFields(ip, addr, cf);
    seq(8, i requires 0 <= i < 8 => InfoItem(fields[i].0, fields[i].1))
  }

  /** The HTML page returned to browsers. It does not show the user agent. */
  function HtmlPage(ip: JsValue, addr: string, cf: Metadata): (page: string)
    ensures |HtmlHead| + |HtmlTail| <= |page|
    ensures page[..|HtmlHead|] == HtmlHead && page[|page| - |HtmlTail|..] == HtmlTail
    ensures page[|HtmlHead|..|page| - |HtmlTail|] == Join(HtmlRows(ip, addr, cf), "\n")
  {
    var grid := Join(HtmlRows(ip, addr, cf), "\n");
    var page := HtmlHead + grid + HtmlTail;
    assert page[..|HtmlHead|] == HtmlHead;
    assert page[|page| - |HtmlTail|..] == HtmlTail;
    assert page[|HtmlHead|..|page| - |HtmlTail|] == grid;
    page
  }

  /**
   The connecting address, location, operator and edge node sit verbatim, unescaped,
   each inside an info-value span of the page.
   */
  lemma HtmlPageEmbeds(ip: JsValue, addr: string, cf: Metadata)
    ensures Contains(HtmlPage(ip, addr, cf), ValueSpan(Interpolate(ip)))
    ensures Contains(HtmlPage(ip, addr, cf), ValueSpan(addr))
    ensures Contains(HtmlPage(ip, addr, cf), ValueSpan(Operator(cf)))
    ensures Contains(HtmlPage(ip, addr, cf), ValueSpan(Interpolate(cf.colo)))
  {
    var fields := HtmlFields(ip, addr, cf);
    assert fields[0].1 == Interpolate(ip) && fields[1].1 == addr;
    assert fields[2].1 == Operator(cf) && fields[3].1 == Interpolate(cf.colo);
    PageShowsRow(ip, addr, cf, 0);
    PageShowsRow(ip, addr, cf, 1);
    PageShowsRow(ip, addr, cf, 2);
    PageShowsRow(ip, addr, cf, 3);
  }

  /** The time zone, continent, TLS and HTTP versions sit verbatim inside info-value spans. */
  lemma HtmlPageShowsConnection(ip: JsValue, addr: string, cf: Metadata)
    ensures Contains(HtmlPage(ip, addr, cf), ValueSpan(Interpolate(cf.timezone)))
    ensures Contains(HtmlPage(ip, addr, cf), ValueSpan(Interpolate(cf.continent)))
    ensures Contains(HtmlPage(ip, addr, cf), ValueSpan(Interpolate(cf.tlsVersion)))
    ensures Contains(HtmlPage(ip, addr, cf), ValueSpan(Interpolate(cf.httpProtocol)))
  {
    var fields := HtmlFields(ip, addr, cf);
    assert fields[4].1 == Interpolate(cf.timezone) && fields[5].1 == Interpolate(cf.continent);
    assert fields[6].1 == Interpolate(cf.tlsVersion) && fields[7].1 == Interpolate(cf.httpProtocol);
    PageShowsRow(ip, addr, cf, 4);
    PageShowsRow(ip, addr, cf, 5);
    PageShowsRow(ip, addr, cf, 6);
    PageShowsRow(ip, addr, cf, 7);
  }

  /** The value of row `i` of the info grid appears in the page. */
  lemma PageShowsRow(ip: JsValue, addr: string, cf: Metadata, i: nat)
    requires i < 8
    ensures Contains(HtmlPage(ip, addr, cf), ValueSpan(HtmlFields(ip, addr, cf)[i].1))
  {
    var rows := HtmlRows(ip, addr, cf);
    var field := HtmlFields(ip, addr, cf)[i];
    var grid := Join(rows, "\n");
    JoinContainsPart(rows, "\n", i);
    ContainsExtend(HtmlHead, grid, HtmlTail, rows[i]);
    RowShowsValue(field.0, field.1);
    ContainsTransitive(HtmlPage(ip, addr, cf), rows[i], ValueSpan(field.1));
  }

  lemma RowShowsValue(caption: string, value: string)
    ensures Contains(InfoItem(caption, value), ValueSpan(value))
  {
    var before := "                <div class=\"info-item\">\n" +
      "                    <span class=\"info-label\">" + caption + "</span>\n";
    var after := "\n" + "                </div>";
    assert InfoItem(caption, value) == before + ValueSpan(value) + after;
    ContainsMiddle(before, ValueSpan(value), after);
  }

  /** The main page: status 200, the service header, and a body chosen by client classification. */
  function MainPage(req: Request): (r: Response)
    ensures r.status == 200
    ensures r.customHeader == Some((ServiceHeader, ServiceName))
    ensures r.contentType == Some(TextPlain) <==> Classifier.IsCurl(UserAgentOf(req))
    ensures r.contentType == Some(TextHtml) <==> !Classifier.IsCurl(UserAgentOf(req))
    ensures r.body.Some?
  {
    var ip := ClientIp(req);
    var ua := UserAgentOf(req);
    var addr := Address(req.cf);
    if Classifier.IsCurl(ua) then
      Response(200, Some(TextPlain), Some((ServiceHeader, ServiceName)), Some(TextReport(ip, addr, req.cf, ua)))
    else
      Response(200, Some(TextHtml), Some((ServiceHeader, ServiceName)), Some(HtmlPage(ip, addr, req.cf)))
  }

  /**
   Curl gets the text report: the connecting address, the location, the operator and the raw
   user agent appear verbatim on their lines.
   */
  lemma CurlGetsReport(req: Request)
    requires Classifier.IsCurl(UserAgentOf(req))
    ensures Contains(MainPage(req).body.value, IpLabel + Interpolate(ClientIp(req)))
    ensures Contains(MainPage(req).body.value, AddressLabel + Address(req.cf))
    ensures Contains(MainPage(req).body.value, OperatorLabel + Operator(req.cf))
    ensures Contains(MainPage(req).body.value, UserAgentLabel + UserAgentOf(req))
  {
    TextReportEmbeds(ClientIp(req), Address(req.cf), req.cf, UserAgentOf(req));
  }

  /** Browsers get the HTML page: the address, location and operator appear verbatim in value spans. */
  lemma BrowserGetsPage(req: Request)
    requires !Classifier.IsCurl(UserAgentOf(req))
    ensures Contains(MainPage(req).body.value, ValueSpan(Interpolate(ClientIp(req))))
    ensures Contains(MainPage(req).body.value, ValueSpan(Address(req.cf)))
    ensures Contains(MainPage(req).body.value, ValueSpan(Operator(req.cf)))
  {
    HtmlPageEmbeds(ClientIp(req), Address(req.cf), req.cf);
  }

  /** Beyond its classification, the user agent does not affect the HTML page. */
  lemma BrowserPageIgnoresUserAgent(req: Request, other: Option<string>)
    requires !Classifier.IsCurl(UserAgentOf(req))
    requires !Classifier.IsCurl(UserAgentOf(req.(userAgent := other)))
    ensures MainPage(req) == MainPage(req.(userAgent := other))
  {
  }

  /**
   Missing data is shown, not rejected: an absent address header reads "null" and absent
   metadata reads "undefined" in the curl report.
   */
  lemma MissingFieldsInReport(req: Request)
    requires Classifier.IsCurl(UserAgentOf(req))
    requires req.connectingIp.None?
    requires req.cf.asn.Undefined? && req.cf.asOrganization.Undefined?
    ensures MainPage(req).status == 200
    ensures Contains(MainPage(req).body.value, IpLabel + "null")
    ensures Contains(MainPage(req).body.value, OperatorLabel + ("AS" + "undefined" + " / " + "undefined"))
  {
    CurlGetsReport(req);
  }

  // Content of the two script snippets around the value they display.
  const Ipv4SnippetHead: string := "var ipv4addr = document.getElementById(\"ipv4addr\"); \n    ipv4addr.innerHTML = '"
  const EdgeSnippetHead: string := "var cfedge = document.getElementById(\"cfedge\"); \n    cfedge.innerHTML = '"
  const SnippetTail: string := "';\n    "

  /** The text a snippet writes into its placeholder, read back from the snippet's body. */
  function SnippetValue(head: string, body: string): (v: Option<string>)
    ensures v.Some? ==> body == head + v.value + SnippetTail
    ensures v.None? ==> forall x :: body != head + x + SnippetTail
  {
    if |head| + |SnippetTail| <= |body| && body[..|head|] == head
       && body[|body| - |SnippetTail|..] == SnippetTail
    then
      var v := body[|head|..|body| - |SnippetTail|];
      assert body == body[..|head|] + v + body[|body| - |SnippetTail|..];
      Some(v)
    else
      assert forall x :: (head + x + SnippetTail)[..|head|] == head;
      assert forall x :: (head + x + SnippetTail)[|head + x + SnippetTail| - |SnippetTail|..] == SnippetTail;
      None
  }

  /** The IPv4 snippet writes "IP: <ip> via <colo>" into the `ipv4addr` element. */
  function IPv4Address(req: Request): (r: Response)
    ensures r.status == 200
    ensures r.contentType == Some(TextPlain)
    ensures r.customHeader == Some((DataTypeHeader, "JavaScript"))
    ensures r.body.Some?
    ensures SnippetValue(Ipv4SnippetHead, r.body.value)
              == Some("IP: " + Interpolate(ClientIp(req)) + " via " + Interpolate(req.cf.colo))
  {
    var shown := "IP: " + Interpolate(ClientIp(req)) + " via " + Interpolate(req.cf.colo);
    var body := Ipv4SnippetHead + shown + SnippetTail;
    assert body[..|Ipv4SnippetHead|] == Ipv4SnippetHead;
    assert body[|body| - |SnippetTail|..] == SnippetTail;
    assert body[|Ipv4SnippetHead|..|body| - |SnippetTail|] == shown;
    Response(200, Some(TextPlain), Some((DataTypeHeader, "JavaScript")), Some(body))
  }

  /** The edge snippet writes the edge node's name into the `cfedge` element. */
  function CFEdge(req: Request): (r: Response)
    ensures r.status == 200
    ensures r.contentType == Some(TextPlain)
    ensures r.customHeader == Some((DataTypeHeader, "JavaScript"))
    ensures r.body.Some?
    ensures SnippetValue(EdgeSnippetHead, r.body.value) == Some(Interpolate(req.cf.colo))
  {
    var shown := Interpolate(req.cf.colo);
    var body := EdgeSnippetHead + shown + SnippetTail;
    assert body[..|EdgeSnippetHead|] == EdgeSnippetHead;
    assert body[|body| - |SnippetTail|..] == SnippetTail;
    assert body[|EdgeSnippetHead|..|body| - |SnippetTail|] == shown;
    Response(200, Some(TextPlain), Some((DataTypeHeader, "JavaScript")), Some(body))
  }

  /** A raw-value reply: the value itself as the body, labelled by its data type. */
  function RawValue(v: JsValue, dataType: string): (r: Response)
    ensures r.status == 200
    ensures r.contentType == Some(TextPlain)
    ensures r.customHeader == Some((DataTypeHeader, dataType))
    ensures v.Str? ==> r.body == Some(v.s)
    ensures !v.Str? ==> r.body.None?
  {
    Response(200, Some(TextPlain), Some((DataTypeHeader, dataType)), AsBody(v))
  }

  /** The autonomous-system number, byte for byte. */
  function Asn(req: Request): (r: Response)
    ensures r.status == 200 && r.contentType == Some(TextPlain)
    ensures r.customHeader == Some((DataTypeHeader, "ASN"))
    ensures req.cf.asn.Str? ==> r.body == Some(req.cf.asn.s)
    ensures !req.cf.asn.Str? ==> r.body.None?
  {
    RawValue(req.cf.asn, "ASN")
  }

  /** The edge node's name, byte for byte. */
  function Colo(req: Request): (r: Response)
    ensures r.status == 200 && r.contentType == Some(TextPlain)
    ensures r.customHeader == Some((DataTypeHeader, "Cloudflare-Node"))
    ensures req.cf.colo.Str? ==> r.body == Some(req.cf.colo.s)
    ensures !req.cf.colo.Str? ==> r.body.None?
  {
    RawValue(req.cf.colo, "Cloudflare-Node")
  }

  /** The connecting address, byte for byte; no body when the header is absent. */
  function Ip(req: Request): (r: Response)
    ensures r.status == 200 && r.contentType == Some(TextPlain)
    ensures r.customHeader == Some((DataTypeHeader, "IP-Address"))
    ensures r.body == req.connectingIp
  {
    RawValue(ClientIp(req), "IP-Address")
  }

  /** The connectivity probe: 204, no body, no headers. */
  function NoContent(): (r: Response)
    ensures r.status == 204
    ensures r.body.None? && r.contentType.None? && r.customHeader.None?
  {
    Response(204, None, None, None)
  }

  const NotFoundText: string := "Not found"

  /**
   The fallback: 404 with the body "Not found". A string body gets the plain-text
   content type from the Response constructor; no custom header is set.
   */
  function NotFound(): (r: Response)
    ensures r.status == 404
    ensures r.body == Some(NotFoundText) && r.body.value != ""
    ensures r.contentType == Some(TextPlain) && r.customHeader.None?
  {
    Response(404, Some(TextPlain), None, Some(NotFoundText))
  }
}
