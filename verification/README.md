# IP information worker — Dafny model

A model of `cloudflare-worker.js`, an edge HTTP handler that reports the caller's network
identity (connecting address, location, autonomous system, edge node, TLS and HTTP versions)
from the metadata the hosting platform attaches to each request. Every part of it is a pure
function of the request path, the two headers it reads (`cf-connecting-ip`, `user-agent`) and
the platform's metadata record:

- **Routing** (`Router`): `/` and `/index.html` go to the main page; every other path goes
  through `switch (true)` with `path.match(token)` cases. `Dispatch` models the code as
  written, where no case can fire; `IntendedRoute` models the routing the case list
  describes (first token the path contains wins). `HandleRequest` and `HandleIntended` are
  the complete request handlers built on each.
- **Client classification** (`Classifier`): curl iff the lower-cased user agent contains
  `curl`; a missing header counts as the empty user agent (`Requests.UserAgentOf`).
- **Location** (`Location`): city, region and country, dropping `null`, `undefined` and `""`,
  joined with `", "`.
- **Responses** (`Handlers`): the main page (text report or HTML page), the two script
  snippets, the three raw-value endpoints, the 204 probe and the 404 reply. A response is
  `Response(status, contentType, customHeader, body)` with optional parts.

Metadata fields are `JsValue = Undefined | Null | Str(s)`, so a missing field interpolates as
`undefined` and a missing address header as `null`, as in the template literals of the source.
Helper modules: `Options` (optional values), `Strings` (substring search, ASCII lower-casing,
joining), `JsValues`, `Requests`, `Responses`.

Behaviour of the code worth knowing, all modelled as written:

- Every non-root path, the API paths included, gets the 404 reply, because no `switch` case can
  fire (cloudflare-worker.js:21-36; see Findings). The first-match routing the case list
  describes is modelled alongside.
- The 404 and 204 replies set no custom header (cloudflare-worker.js:35, 394-396).
- When the ASN, colo or address is missing, the raw-value endpoints pass `undefined` or `null`
  to the `Response` constructor. Under the Fetch standard either one means "no body", so those
  replies have no body (cloudflare-worker.js:355, 368, 381).
- Each token includes its leading slash, so a path such as `/fasn123` does not contain `/asn` and is not found under the intended routing either.

## Model

| member | source | states |
|---|---|---|
| Router.Dispatch | cloudflare-worker.js:12-37 | the routing as written reaches the main page exactly for the two root paths |
| Router.RegexMatch | cloudflare-worker.js:22-32 | `path.match(token)` is `null` iff the token does not occur; otherwise a match array at the first occurrence; never a boolean |
| Router.SwitchCases | cloudflare-worker.js:22-32 | the `switch`'s case values are, in case order, the match results of the six tokens, each paired with its route |
| Router.SelectCase | cloudflare-worker.js:21-36 | a `switch` picks the route of the first case `===` to the discriminant, and the default when no case is |
| Router.DispatchNonRootIsNotFound | cloudflare-worker.js:21-36 | as written, every path other than `/` and `/index.html` is routed to the 404 reply |
| Router.FirstMatch | cloudflare-worker.js:22-35 | first-match-wins over an ordered token table: a table route is chosen only if its token occurs and no earlier one does; no occurring token means not found |
| Router.IntendedRoute | cloudflare-worker.js:16-35 | intended routing: main page iff root path; otherwise not found iff the path contains no token, else the route of the first token in the order `/myipv4addr`, `/mycfedge`, `/asn`, `/colo`, `/ip`, `/generate_204` |
| Router.DispatchAgreesWithIntended | cloudflare-worker.js:16-36 | the written and the intended routing agree exactly on root paths and on paths containing no token, in both directions |
| Router.RootNearMisses | cloudflare-worker.js:16-36 | as written, pathnames that nearly match the root (`/index.htm`, `/index.html/x`, `/INDEX.HTML` since `===` is case-sensitive, `/index.html%3F`) and the API path `/ip` are not found |
| Router.IntendedNearMiss | cloudflare-worker.js:16-35 | `/index.htm` is not the main page and holds no token, so it is not found under the intended routing too |
| Router.IntendedOrderExample | cloudflare-worker.js:26-31 | `/ip/asn` is served by the ASN route because `/asn` is checked before `/ip` |
| Router.ProbeRoute | cloudflare-worker.js:22-32 | `/generate_204` contains the probe token and none of the five tokens checked before it |
| Router.SlashBelongsToToken | cloudflare-worker.js:22-35 | the tokens include their leading slash: `/fasn123` does not contain `/asn` and, holding no token, is not found under the intended routing |
| Router.Generate204Example | cloudflare-worker.js:32-33 | under the intended routing `/generate_204` takes the probe route and answers 204 with no body and no headers |
| Router.Respond | cloudflare-worker.js:16-36 | each route is answered by its handler: main page, IPv4 snippet, edge snippet, ASN, colo, IP, 204 reply or 404 reply; the 404 reply is status 404, the probe 204, every other route 200 |
| Router.HandleRequest | cloudflare-worker.js:12-37 | as written, root paths get the main page and every other path 404 with body `Not found` |
| Router.HandleIntended | cloudflare-worker.js:12-37 | with intended routing, a non-root request gets 404 iff its path contains no token, and otherwise the response of the handler for the first token it contains |
| Router.HandlersAgree | cloudflare-worker.js:12-37 | the written and the intended handler give the same response exactly on root paths and token-free paths |
| Router.OtherRoutesIgnoreUserAgent | cloudflare-worker.js:21-36 | off the main page the user agent never changes the response |
| Strings.FindFirst | cloudflare-worker.js:22-32 | the index of the first occurrence of a pattern, absent iff the pattern does not occur |
| Strings.Join | cloudflare-worker.js:63 | joining no parts gives `""` and joining one part gives that part, with no separator |
| Strings.JoinLength | cloudflare-worker.js:63 | joining `n > 0` parts inserts exactly `n - 1` separators |
| Strings.JoinEnds | cloudflare-worker.js:63 | a join begins with its first part and ends with its last |
| Strings.JoinContainsPart | cloudflare-worker.js:63 | every part of a join occurs in the joined string |
| Requests.ClientIp | cloudflare-worker.js:57 | the connecting address is `null` iff the `cf-connecting-ip` header is absent, and otherwise the header's value |
| JsValues.Interpolate | cloudflare-worker.js:74-83 | a `${…}` substitution inserts a string value unchanged, `undefined` as `"undefined"` and `null` as `"null"` |
| JsValues.AsBody | cloudflare-worker.js:355-381 | a value passed as a `Response` body gives a body iff it is a string, and then exactly that string |
| Requests.UserAgentOf | cloudflare-worker.js:58 | a missing user-agent header is read as the empty string |
| Location.Survivors | cloudflare-worker.js:62 | the filter keeps only non-empty strings, at most as many as it is given, and keeps nothing iff no value is present |
| Location.SurvivorsKeepPresent | cloudflare-worker.js:62 | every value that is neither `null`, `undefined` nor `""` survives the filter |
| Location.SurvivorsAppend | cloudflare-worker.js:62 | filtering distributes over concatenation, so survivors keep their order |
| Location.Compose | cloudflare-worker.js:61-63 | the location joins the kept fields city, region, country in that order with `", "`, and is empty iff all three are absent or empty |
| Location.ComposeSingle | cloudflare-worker.js:61-63 | with one survivor the location is that field, without separator |
| Location.ComposeAll | cloudflare-worker.js:61-63 | with all three present the location is `city, region, country` |
| Location.ComposeLength | cloudflare-worker.js:61-63 | the location's length is the survivors' total length plus one separator per adjacent pair |
| Location.ComposeEnds | cloudflare-worker.js:61-63 | the location starts with the first survivor and ends with the last, so no leading or trailing separator |
| Location.ComposeTokyoExample | cloudflare-worker.js:61-63 | city `Tokyo`, region `null`, country `JP` gives `Tokyo, JP` |
| Classifier.IsCurl | cloudflare-worker.js:66 | the line-66 test, lower-case then search for `curl`; its own contract gives only the length bound that a curl user agent has at least four characters, and the full characterisation is Classifier.IsCurlIff |
| Strings.ToLowerAscii | cloudflare-worker.js:66 | lower-casing keeps the length and maps each character on its own, changing only `A`-`Z` |
| Classifier.IsCurlIff | cloudflare-worker.js:66 | classification as curl holds iff `curl` occurs in the user agent in any mix of letter cases |
| Classifier.ClassifyExamples | cloudflare-worker.js:58-66 | `CURL/8.0` counts as curl; the empty user agent of a missing header does not |
| Classifier.NoCNotCurl | cloudflare-worker.js:66 | a user agent without any `c` or `C` is a browser |
| Handlers.Address | cloudflare-worker.js:61-63 | the address of the request's metadata is empty iff none of city, region and country is present |
| Handlers.Operator | cloudflare-worker.js:76 | the operator text is `AS`, then the ASN, then ` / `, then the organisation, and it can be split back into those parts |
| Handlers.ReportLines | cloudflare-worker.js:70-87 | the report template has 18 lines: an empty first line (the literal opens with a newline) and a last line of four spaces |
| Handlers.TextReport | cloudflare-worker.js:70-87 | the report starts with a newline and ends with the four-space indentation of the closing line |
| Handlers.HtmlPage | cloudflare-worker.js:98-300 | the page is the fixed head markup, then the info-grid rows joined by newlines, then the fixed tail markup; the head, the grid and the tail can each be cut back out of the page |
| Handlers.MainPage | cloudflare-worker.js:42-310 | the main page is 200 with `X-Service: IP-Info-Worker` and a body; `text/plain;charset=UTF-8` iff curl, `text/html;charset=UTF-8` iff not |
| Handlers.CurlGetsReport | cloudflare-worker.js:68-95 | curl's body shows the address, the location, the operator line and the raw user agent verbatim |
| Handlers.BrowserGetsPage | cloudflare-worker.js:96-308 | a browser's body shows the address, the location and the operator verbatim in value spans |
| Handlers.TextReportEmbeds | cloudflare-worker.js:70-87 | the report shows the address, location, operator as `AS<asn> / <organisation>`, edge node and raw user agent verbatim on their labelled lines, unescaped |
| Handlers.TextReportShowsConnection | cloudflare-worker.js:78-81 | the report shows time zone, continent, TLS and HTTP versions verbatim on their labelled lines |
| Handlers.HtmlPageEmbeds | cloudflare-worker.js:259-276 | the HTML page shows the address, location, operator and edge node verbatim, unescaped, each in an info-value span |
| Handlers.HtmlPageShowsConnection | cloudflare-worker.js:277-292 | the HTML page shows time zone, continent, TLS and HTTP versions verbatim in info-value spans |
| Handlers.BrowserPageIgnoresUserAgent | cloudflare-worker.js:96-308 | two browser user agents get the identical page: the HTML does not show the user agent |
| Handlers.MissingFieldsInReport | cloudflare-worker.js:57-87 | a missing address header reads `null` and missing metadata `undefined`, and the page is still 200 |
| Handlers.SnippetValue | cloudflare-worker.js:319-321 | reads back the value a snippet writes, present iff the body has the snippet's fixed head and tail |
| Handlers.IPv4Address | cloudflare-worker.js:315-330 | 200, plain text, `X-Data-Type: JavaScript`, and the snippet writes `IP: <ip> via <colo>` |
| Handlers.CFEdge | cloudflare-worker.js:335-349 | 200, plain text, `X-Data-Type: JavaScript`, and the snippet writes the edge node's name |
| Handlers.Asn | cloudflare-worker.js:354-362 | 200, plain text, `X-Data-Type: ASN`, body exactly the ASN, no body when it is missing |
| Handlers.Colo | cloudflare-worker.js:367-375 | 200, plain text, `X-Data-Type: Cloudflare-Node`, body exactly the edge node, no body when it is missing |
| Handlers.Ip | cloudflare-worker.js:380-388 | 200, plain text, `X-Data-Type: IP-Address`, body exactly the address header, none when it is absent |
| Handlers.NoContent | cloudflare-worker.js:393-397 | 204 with no body and no headers |
| Handlers.NotFound | cloudflare-worker.js:35 | 404 with the non-empty body `Not found`, plain text, no custom header |

## Left out

- Registration of the fetch listener and the asynchronous response plumbing (cloudflare-worker.js:8-10): host glue, no logic.
- URL parsing (cloudflare-worker.js:13): the input is the pathname the parser produces, with the query and fragment already split off, so a request for `/index.html?x` reaches the model as `/index.html`.
- Case-insensitive header lookup (`cf-connecting-ip` at line 57, `CF-Connecting-IP` at line 381): the address header is one optional input.
- The stylesheet, page header, footer and indentation of the HTML page (cloudflare-worker.js:98-258, 293-300): `Handlers.HtmlHead` and `Handlers.HtmlTail` stand for that fixed markup; only the info grid's rows and their values are modelled.
- Strings.ToLowerAscii — Unicode `toLowerCase` is modelled as ASCII lower-casing. For the token `curl` this gives the same classification, since no non-ASCII character lower-cases to `c`, `u`, `r` or `l`.
- Numeric `asn` and its conversion to text: every metadata field is a string.
- `regionCode` is read by the source but never displayed; it is in the metadata record only.
- The `Response` and `Headers` objects: only status, `Content-Type`, the one custom header and the body are modelled. The 404 reply's `Content-Type` is the one the Fetch standard adds for a string body.
- A request without the platform's metadata record: the source reads `request.cf` without a check (cloudflare-worker.js:55, 317, 336, 355, 368) and would throw a `TypeError` if it were missing. The model assumes the record is always present; `Requests.Metadata` is a record in every request.
- Idempotence (same request, same response): every operation is a Dafny function, so it holds by construction and has no lemma.

## Findings

| source | as written | input that shows it | evidently intended | confidence | as-written member | corrected member |
|---|---|---|---|---|---|---|
| cloudflare-worker.js:21-36 | `switch (true)` with cases `path.match(token)`: a match array or `null` is never `=== true`, so no API case fires | path `/ip` (or `/asn`, `/generate_204`) answers 404 `Not found` | route to the handler of the first token the path contains | high; not executed | Router.DispatchNonRootIsNotFound | Router.IntendedRoute |
