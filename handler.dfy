/**
 * The HTTP handler of `pages/api/detect_bot.js`: CORS headers from an origin
 * allowlist (the CORS protocol of the WHATWG Fetch Standard, section 3.2),
 * the preflight answer, the method check (405 Method Not Allowed, section
 * 15.5.6 of RFC 9110), the check of the two body fields, and the classification
 * of a valid request.
 *
 * The framework's request and response objects are replaced by a `Request`
 * value and a returned `Response` record; the IP-information lookup is an
 * input, and `Handle` reports the address it would have looked up.
 */
module Handler {
  import opened Wrappers
  import opened Classifier

  /** Front-end origins that may read the response. */
  const AllowedOrigins: seq<string> :=
    ["https://azurerdr.z19.web.core.windows.net", "https://toon.net", "https://amy.com"]

  const AllowMethods: string := "OPTIONS, POST"
  const AllowHeaders: string := "Content-Type, Authorization"

  const MethodNotAllowedMessage: string := "Method not allowed"
  const InvalidRequestMessage: string := "Invalid request: Missing user_agent or IP."
  const InternalErrorMessage: string := "Internal server error"

  /** The `user_agent` and `ip` members of the parsed JSON body; None when absent. */
  datatype Fields = Fields(userAgent: Option<string>, ip: Option<string>)

  /** An inbound request: its method (`req.method`), its `Origin` header, and its parsed body (None when there is none). */
  datatype Request = Request(verb: string, origin: Option<string>, body: Option<Fields>)

  /** A JSON response body. */
  datatype Body = Detection(verdict: Verdict) | Error(message: string)

  /** What the handler writes: status, the three CORS headers, and a body unless the response is ended empty. */
  datatype Response = Response(
    status: int,
    allowOrigin: string,
    allowMethods: string,
    allowHeaders: string,
    body: Option<Body>)

  /** The `Access-Control-Allow-Origin` value: the origin itself when allowlisted, else "null". */
  function AllowOrigin(origin: Option<string>): (r: string)
    ensures r == "null" || r in AllowedOrigins
    ensures origin.Some? && origin.value in AllowedOrigins ==> r == origin.value
    ensures !(origin.Some? && origin.value in AllowedOrigins) ==> r == "null"
  {
    if origin.Some? && origin.value in AllowedOrigins then origin.value else "null"
  }

  /**
   * The header echoes the origin exactly when the origin is allowlisted, or
   * when the origin is itself the string "null" (which the fallback repeats).
   */
  lemma AllowOriginEchoes(origin: string)
    ensures AllowOrigin(Some(origin)) == origin <==> origin in AllowedOrigins || origin == "null"
  {
  }

  /** `!userAgent || !ip` is false: both fields are present and non-empty. */
  function ValidFields(f: Fields): (r: bool)
    ensures r <==> f.userAgent !in {None, Some("")} && f.ip !in {None, Some("")}
  {
    Truthy(f.userAgent) && Truthy(f.ip)
  }

  /** A POST whose body carries both fields: the only request that is classified. */
  function IsValidPost(req: Request): (r: bool)
    ensures r ==> req.verb == "POST" && req.body.Some?
    ensures r ==> req.body.value.userAgent.Some? && req.body.value.userAgent.value != ""
    ensures r ==> req.body.value.ip.Some? && req.body.value.ip.value != ""
    ensures req.verb == "POST" && req.body.Some? ==> r == ValidFields(req.body.value)
  {
    req.verb == "POST" && req.body.Some? && ValidFields(req.body.value)
  }

  /**
   * Handles one request. `lookup` is what the IP-information service answers
   * for the body's `ip`; `queried` is the address sent to it, None when no
   * lookup is made.
   */
  method Handle(req: Request, lookup: Lookup) returns (resp: Response, queried: Option<string>)
    ensures resp.allowOrigin == AllowOrigin(req.origin)
    ensures resp.allowMethods == AllowMethods && resp.allowHeaders == AllowHeaders
    ensures req.verb == "OPTIONS" ==> resp.status == 200 && resp.body == None
    ensures req.verb != "OPTIONS" && req.verb != "POST" ==>
      resp.status == 405 && resp.body == Some(Error(MethodNotAllowedMessage))
    ensures req.verb == "POST" && req.body.None? ==>
      resp.status == 500 && resp.body == Some(Error(InternalErrorMessage))
    ensures req.verb == "POST" && req.body.Some? && !ValidFields(req.body.value) ==>
      resp.status == 400 && resp.body == Some(Error(InvalidRequestMessage))
    ensures IsValidPost(req) ==>
      resp.status == 200 &&
      resp.body == Some(Detection(Classify(req.body.value.userAgent.value, lookup)))
    ensures queried == if IsValidPost(req) then Some(req.body.value.ip.value) else None
  {
    var allowOrigin := AllowOrigin(req.origin);
    queried := None;

    if req.verb == "OPTIONS" {
      resp := Response(200, allowOrigin, AllowMethods, AllowHeaders, None);
      return;
    }
    if req.verb != "POST" {
      resp := Response(405, allowOrigin, AllowMethods, AllowHeaders, Some(Error(MethodNotAllowedMessage)));
      return;
    }
    if req.body.None? {
      // destructuring an absent body throws; the outer catch answers 500
      resp := Response(500, allowOrigin, AllowMethods, AllowHeaders, Some(Error(InternalErrorMessage)));
      return;
    }
    var userAgent, ip := req.body.value.userAgent, req.body.value.ip;
    if !Truthy(userAgent) || !Truthy(ip) {
      resp := Response(400, allowOrigin, AllowMethods, AllowHeaders, Some(Error(InvalidRequestMessage)));
      return;
    }

    // Step 1: User-Agent signatures
    var isBotUserAgent := IsBotUserAgent(userAgent.value);

    // Step 2: ISP name and blocklist; a failed lookup leaves both defaults
    var isp := "Unknown";
    var isScraperIsp := false;
    queried := Some(ip.value);
    match lookup {
      case Failed =>
      case NoData =>
      case Data(companyName, asnName) =>
        isp := IspName(companyName, asnName);
        isScraperIsp := IsScraperIsp(isp);
    }

    var isBot := isBotUserAgent || isScraperIsp;
    resp := Response(200, allowOrigin, AllowMethods, AllowHeaders, Some(Detection(Verdict(isBot, isp))));
  }
}
