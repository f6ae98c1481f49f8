/**
 Request dispatch. The worker sends `/` and `/index.html` to the main page and every other
 path through `switch (true)` whose cases are `path.match(token)`. A `match` result is an
 array or `null`, never the boolean `true`, and `switch` compares with `===`, so as written
 no case fires and every other path gets the 404 reply (`Dispatch`). `IntendedRoute` is the
 routing the case list describes: the first token the path contains wins.
 */
module Router {
  import opened Options
  import opened Strings
  import opened Requests
  import opened Responses
  import Handlers

  datatype Route =
    | MainPage
    | Ipv4Snippet
    | EdgeSnippet
    | RawAsn
    | RawColo
    | RawIp
    | Generate204
    | NoRoute

  /** The two paths served by the main page, compared exactly. */
  predicate IsRoot(path: string) {
    path == "/" || path == "/index.html"
  }

  /** The route tokens in case order, each with the route its case selects. */
  const RouteTable: seq<(string, Route)> := [
    ("/myipv4addr", Ipv4Snippet),
    ("/mycfedge", EdgeSnippet),
    ("/asn", RawAsn),
    ("/colo", RawColo),
    ("/ip", RawIp),
    ("/generate_204", Generate204)
  ]

  /** No route token occurs in `path`. */
  predicate NoTokenIn(path: string) {
    forall i :: 0 <= i < |RouteTable| ==> !Contains(path, RouteTable[i].0)
  }

  /**
   The JavaScript values that meet in the `switch`: the discriminant `true`, and the case
   values, each a match array (index of the match and the matched text) or `null`.
   */
  datatype JsCaseValue = JsBoolean(b: bool) | MatchArray(index: nat, matched: string) | JsNull

  /**
   `===`: booleans and `null` compare by value; a match array is a fresh object on every
   call, so it is identical to no other case value.
   */
  predicate StrictEquals(a: JsCaseValue, b: JsCaseValue) {
    match (a, b)
    case (JsBoolean(x), JsBoolean(y)) => x == y
    case (JsNull, JsNull) => true
    case _ => false
  }

  /** `path.match(token)` for a token without regular-expression metacharacters. */
  function RegexMatch(path: string, token: string): (m: JsCaseValue)
    ensures m.JsNull? <==> !Contains(path, token)
    ensures m.MatchArray? ==> m.matched == token && OccursAt(path, token, m.index)
    ensures m.MatchArray? ==> forall j :: 0 <= j < m.index ==> !OccursAt(path, token, j)
    ensures !m.JsBoolean?
  {
    match FindFirst(path, token)
    case Some(i) => MatchArray(i, token)
    case None => JsNull
  }

  /** No case before index `i` is `===` to `disc`. */
  predicate FirstHit(disc: JsCaseValue, cases: seq<(JsCaseValue, Route)>, i: int)
    requires i <= |cases|
  {
    forall j :: 0 <= j < i ==> !StrictEquals(disc, cases[j].0)
  }

  /** No token before index `i` of `table` occurs in `path`. */
  predicate NoneBefore(path: string, table: seq<(string, Route)>, i: int)
    requires i <= |table|
  {
    forall j :: 0 <= j < i ==> !Contains(path, table[j].0)
  }

  /**
   `switch (disc)`: the route of the first case whose value is `===` to `disc`, or the
   default when none is.
   */
  function SelectCase(disc: JsCaseValue, cases: seq<(JsCaseValue, Route)>, default: Route): (r: Route)
    ensures (forall i :: 0 <= i < |cases| ==> !StrictEquals(disc, cases[i].0)) ==> r == default
    ensures forall i :: 0 <= i < |cases| && StrictEquals(disc, cases[i].0) && FirstHit(disc, cases, i) ==>
              r == cases[i].1
    decreases |cases|
  {
    if |cases| == 0 then default
    else if StrictEquals(disc, cases[0].0) then cases[0].1
    else SelectCase(disc, cases[1..], default)
  }

  /** The case values of the worker's `switch` for `path`, in case order. */
  function SwitchCases(path: string): (cases: seq<(JsCaseValue, Route)>)
    ensures |cases| == |RouteTable|
    ensures forall i :: 0 <= i < |cases| ==>
              cases[i].0 == RegexMatch(path, RouteTable[i].0) && cases[i].1 == RouteTable[i].1
  {
    seq(|RouteTable|, i requires 0 <= i < |RouteTable| => (RegexMatch(path, RouteTable[i].0), RouteTable[i].1))
  }

  /** The route the worker's code selects, as written. */
  function Dispatch(path: string): (r: Route)
    ensures r == MainPage <==> IsRoot(path)
  {
    if IsRoot(path) then MainPage
    else SelectCase(JsBoolean(true), SwitchCases(path), NoRoute)
  }

  /** Every route of `table` is an endpoint: neither the main page nor the not-found route. */
  predicate EndpointsOnly(table: seq<(string, Route)>) {
    forall i :: 0 <= i < |table| ==> table[i].1 != MainPage && table[i].1 != NoRoute
  }

  /** First route in `table` whose token occurs in `path`; `NoRoute` when none does. */
  function FirstMatch(path: string, table: seq<(string, Route)>): (r: Route)
    ensures (forall i :: 0 <= i < |table| ==> !Contains(path, table[i].0)) ==> r == NoRoute
    ensures forall i :: 0 <= i < |table| && Contains(path, table[i].0) && NoneBefore(path, table, i) ==>
              r == table[i].1
    ensures r == NoRoute || exists i :: 0 <= i < |table| && r == table[i].1 && Contains(path, table[i].0)
    decreases |table|
  {
    if |table| == 0 then NoRoute
    else if Contains(path, table[0].0) then table[0].1
    else
      var r := FirstMatch(path, table[1..]);
      assert forall i :: 0 < i < |table| ==> table[1..][i - 1] == table[i];
      r
  }

  /** The routing the case list describes: root first, then the first token the path contains. */
  function IntendedRoute(path: string): (r: Route)
    ensures r == MainPage <==> IsRoot(path)
    ensures !IsRoot(path) ==> (r == NoRoute <==> NoTokenIn(path))
    ensures !IsRoot(path) ==>
              forall i :: 0 <= i < |RouteTable| && Contains(path, RouteTable[i].0) && NoneBefore(path, RouteTable, i) ==>
                r == RouteTable[i].1
  {
    if IsRoot(path) then MainPage
    else
      assert EndpointsOnly(RouteTable);
      FirstMatch(path, RouteTable)
  }

  /** As written, every path other than the two root paths is not found. */
  lemma DispatchNonRootIsNotFound(path: string)
    requires !IsRoot(path)
    ensures Dispatch(path) == NoRoute
  {
  }

  /**
   The code as written and the intended routing agree exactly on the root paths and on
   paths that contain no route token; on every other path they differ.
   */
  lemma DispatchAgreesWithIntended(path: string)
    ensures Dispatch(path) == IntendedRoute(path) <==> IsRoot(path) || NoTokenIn(path)
  {
  }

  /**
   Pathnames that miss the root only by a character, by letter case (the comparison is exact)
   or by a percent-encoded character, and the API paths themselves, are not found as written.
   */
  lemma RootNearMisses(path: string)
    requires path == "/index.htm" || path == "/index.html/x" || path == "/INDEX.HTML" ||
             path == "/index.html%3F" || path == "/ip"
    ensures Dispatch(path) == NoRoute
  {
  }

  /** A near miss of the root that holds no route token is not found under the intended routing either. */
  lemma IntendedNearMiss(path: string)
    requires path == "/index.htm"
    ensures IntendedRoute(path) == NoRoute
  {
    // "/index.htm" differs from "/mycfedge", "/asn" and "/colo" at their second character and
    // from "/ip" at its third; "/myipv4addr" and "/generate_204" are longer than the path.
    assert path[..9][1] != RouteTable[1].0[1];
    assert path[..4][1] != RouteTable[2].0[1];
    assert path[..5][1] != RouteTable[3].0[1];
    assert path[..3][2] != RouteTable[4].0[2];
    forall i | 0 <= i < |RouteTable|
      ensures !Contains(path, RouteTable[i].0)
    {
      OnlyLeadingSlash(path, RouteTable[i].0);
    }
  }

  /** Tokens are checked in order, so "/ip/asn" is served by the ASN route, not the IP route. */
  lemma IntendedOrderExample()
    ensures IntendedRoute("/ip/asn") == RawAsn
  {
    var path := "/ip/asn";
    NotContainsLonger(path, RouteTable[0].0);
    NotContainsLonger(path, RouteTable[1].0);
    assert path[3..7] == "/asn";
    ContainsAt(path, "/asn", 3);
  }

  /** The response for a route. */
  function Respond(route: Route, req: Request): (r: Response)
    ensures route == MainPage ==> r == Handlers.MainPage(req)
    ensures route == NoRoute ==> r.status == 404
    ensures route == Ipv4Snippet ==> r == Handlers.IPv4Address(req)
    ensures route == EdgeSnippet ==> r == Handlers.CFEdge(req)
    ensures route == RawAsn ==> r == Handlers.Asn(req)
    ensures route == RawColo ==> r == Handlers.Colo(req)
    ensures route == RawIp ==> r == Handlers.Ip(req)
    ensures route == Generate204 ==> r == Handlers.NoContent()
    ensures route == NoRoute ==> r == Handlers.NotFound()
    ensures route != NoRoute && route != Generate204 ==> r.status == 200
  {
    match route
    case MainPage => Handlers.MainPage(req)
    case Ipv4Snippet => Handlers.IPv4Address(req)
    case EdgeSnippet => Handlers.CFEdge(req)
    case RawAsn => Handlers.Asn(req)
    case RawColo => Handlers.Colo(req)
    case RawIp => Handlers.Ip(req)
    case Generate204 => Handlers.NoContent()
    case NoRoute => Handlers.NotFound()
  }

  /** The worker's request handler as written. */
  function HandleRequest(req: Request): (r: Response)
    ensures IsRoot(req.path) ==> r == Handlers.MainPage(req)
    ensures !IsRoot(req.path) ==> r.status == 404 && r.body == Some(Handlers.NotFoundText)
  {
    Respond(Dispatch(req.path), req)
  }

  /** The request handler with the intended routing. */
  function HandleIntended(req: Request): (r: Response)
    ensures IsRoot(req.path) ==> r == Handlers.MainPage(req)
    ensures !IsRoot(req.path) ==> (r.status == 404 <==> NoTokenIn(req.path))
    ensures !IsRoot(req.path) ==>
              forall i :: 0 <= i < |RouteTable| && Contains(req.path, RouteTable[i].0) && NoneBefore(req.path, RouteTable, i) ==>
                r == Respond(RouteTable[i].1, req)
  {
    Respond(IntendedRoute(req.path), req)
  }

  /** The two handlers give the same response exactly where the two routings agree. */
  lemma HandlersAgree(req: Request)
    ensures HandleRequest(req) == HandleIntended(req) <==> IsRoot(req.path) || NoTokenIn(req.path)
  {
  }

  /** Only the main page looks at the user agent: every other route answers the same to any client. */
  lemma OtherRoutesIgnoreUserAgent(req: Request, ua: Option<string>)
    requires !IsRoot(req.path)
    ensures HandleRequest(req) == HandleRequest(req.(userAgent := ua))
    ensures HandleIntended(req) == HandleIntended(req.(userAgent := ua))
  {
  }

  /**
   A token that starts with '/' can occur in a path whose only '/' is its first character
   only as a prefix of that path.
   */
  lemma OnlyLeadingSlash(path: string, token: string)
    requires |token| > 0 && token[0] == '/'
    requires forall i :: 0 < i < |path| ==> path[i] != '/'
    requires |token| > |path| || (|token| > 1 && |path| > 1 && path[1] != token[1]) || path[..|token|] != token
    ensures !Contains(path, token)
  {
  }

  /**
   `/fasn123` does not hold the token `/asn`: its only '/' is followed by 'f'. Holding no
   token at all, it is not found under the intended routing.
   */
  lemma SlashBelongsToToken(path: string)
    requires path == "/fasn123"
    ensures !Contains(path, "/asn")
    ensures IntendedRoute(path) == NoRoute
  {
    assert path[1] == 'f';
    OnlyLeadingSlash(path, "/asn");
    forall i | 0 <= i < |RouteTable|
      ensures !Contains(path, RouteTable[i].0)
    {
      OnlyLeadingSlash(path, RouteTable[i].0);
    }
  }

  /** Under the intended routing the probe path answers 204 with no body and no headers. */
  lemma Generate204Example(req: Request)
    requires req.path == "/generate_204"
    ensures IntendedRoute(req.path) == Generate204
    ensures HandleIntended(req) == Response(204, None, None, None)
  {
    ProbeRoute(req.path);
  }

  /** The probe path contains the probe token and none of the tokens checked before it. */
  lemma ProbeRoute(path: string)
    requires path == "/generate_204"
    ensures Contains(path, RouteTable[5].0) && NoneBefore(path, RouteTable, 5)
  {
    assert path[1] == 'g';
    OnlyLeadingSlash(path, "/myipv4addr");
    OnlyLeadingSlash(path, "/mycfedge");
    OnlyLeadingSlash(path, "/asn");
    OnlyLeadingSlash(path, "/colo");
    OnlyLeadingSlash(path, "/ip");
    assert path[0..13] == RouteTable[5].0;
    ContainsAt(path, RouteTable[5].0, 0);
  }
}
