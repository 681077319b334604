/** The plain variant of the proxy (`proxy` in app.py): forwards every
    request to the fixed origin with a browser-mimicry header block, copies
    the reply back minus a 4-name exclusion set, keeps same-origin redirects
    inside the proxy by string-prefix matching, and adds permissive CORS
    headers. */
module AppProxy {
  import opened Wrappers
  import opened Strings
  import opened Http

  /** `TARGET_URL` */
  const TargetUrl := "https://www.linkedin.com"

  /** The browser-mimicry block written over the forwarded request headers,
      keyed exactly as app.py spells the names. */
  const Mimicry: map<string, string> := map[
    "User-Agent" := "Mozilla/5.0 (Macintosh; Intel Mac OS X 10_15_7) AppleWebKit/537.36 (KHTML, like Gecko) Chrome/120.0.0.0 Safari/537.36",
    "Accept" := "text/html,application/xhtml+xml,application/xml;q=0.9,image/avif,image/webp,image/apng,*/*;q=0.8,application/signed-exchange;v=b3;q=0.7",
    "Accept-Language" := "en-US,en;q=0.9",
    "Sec-Ch-Ua" := "\"Not A(Brand\";v=\"99\", \"Google Chrome\";v=\"121\", \"Chromium\";v=\"121\"",
    "Sec-Ch-Ua-Mobile" := "?0",
    "Sec-Ch-Ua-Platform" := "\"macOS\"",
    "Sec-Fetch-Dest" := "document",
    "Sec-Fetch-Mode" := "navigate",
    "Sec-Fetch-Site" := "none",
    "Sec-Fetch-User" := "?1",
    "Upgrade-Insecure-Requests" := "1"
  ]

  /** No mimicry header is named `Host`. */
  lemma HostNotMimicked()
    ensures "Host" !in Mimicry
  {
    assert forall n :: n in Mimicry ==> |n| != 4;
  }

  /** Lower-cased names of the upstream headers not copied to the client. */
  const Excluded: set<string> := {"content-length", "connection", "transfer-encoding", "content-security-policy"}

  const AllowMethods := "GET, POST, PUT, DELETE, OPTIONS"
  const AllowHeaders := "Content-Type, Authorization"

  /** The outbound request headers: the inbound ones except the one named
      exactly `Host`, then the mimicry block on top. */
  method BuildRequestHeaders(inbound: HeaderMap) returns (sent: map<string, string>)
    ensures "Host" !in sent
    ensures forall n :: n in Mimicry ==> n in sent && sent[n] == Mimicry[n]
    ensures forall k :: k in inbound && inbound[k].name != "Host" && inbound[k].name !in Mimicry ==>
              inbound[k].name in sent && sent[inbound[k].name] == inbound[k].value
    ensures forall n :: n in sent && n !in Mimicry ==>
              n != "Host" && Lower(n) in inbound && inbound[Lower(n)].name == n && sent[n] == inbound[Lower(n)].value
  {
    sent := ForwardRequestHeaders(inbound, n => n != "Host");
    sent := sent + Mimicry;
    HostNotMimicked();
  }

  /** The `Location` app.py writes for an upstream redirect target `loc`, or
      None when it leaves the copied header alone: a target on the origin
      (by string prefix) or a relative one is moved under the proxy prefix,
      any other absolute target is kept. */
  function RewriteLocation(loc: string): (r: Option<string>)
    ensures r.None? <==> StartsWith(loc, "http") && !StartsWith(loc, TargetUrl)
    ensures r.Some? ==> StartsWith(r.value, ProxyPrefix)
    // swapping the proxy prefix back for the origin recovers the target
    ensures r.Some? && StartsWith(loc, "http") ==> TargetUrl + r.value[|ProxyPrefix|..] == loc
    ensures r.Some? && !StartsWith(loc, "http") ==> r.value[|ProxyPrefix|..] == loc
  {
    if StartsWith(loc, "http") then
      if StartsWith(loc, TargetUrl) then
        assert loc == TargetUrl + loc[|TargetUrl|..];
        Some(ProxyPrefix + loc[|TargetUrl|..])
      else
        None
    else
      Some(ProxyPrefix + loc)
  }

  /** One request through `proxy(path)`: the headers it sends upstream, and
      the response it returns given what the dispatch produced; any failure
      of the dispatch becomes a 500 carrying its message. */
  method Proxy(inbound: HeaderMap, dispatch: Result<Upstream>) returns (sent: map<string, string>, response: Response)
    ensures "Host" !in sent
    ensures forall n :: n in Mimicry ==> n in sent && sent[n] == Mimicry[n]
    ensures dispatch.Failure? ==> response == ErrorResponse(dispatch.error)
    ensures dispatch.Success? ==> IsRelayed(dispatch.value, response)
  {
    sent := BuildRequestHeaders(inbound);
    match dispatch
    case Failure(e) =>
      response := ErrorResponse(e);
    case Success(up) =>
      response := Relay(up);
  }

  /** What the client receives for upstream reply `up`: its status and body;
      CORS headers overriding upstream's; every other upstream header outside
      the exclusion set as is, and nothing else; and `Location` replaced only
      for a redirect the rewriter moves. */
  ghost predicate IsRelayed(up: Upstream, response: Response) {
    && response.status == up.status
    && response.body == Content(up.content)
    && Get(response.headers, "Access-Control-Allow-Origin") == Some("*")
    && Get(response.headers, "Access-Control-Allow-Methods") == Some(AllowMethods)
    && Get(response.headers, "Access-Control-Allow-Headers") == Some(AllowHeaders)
    && (forall k :: k in up.headers && k !in Excluded && k !in CorsKeys && k != "location" ==>
          k in response.headers && response.headers[k] == up.headers[k])
    && (forall k :: k in response.headers ==> k in CorsKeys || (k in up.headers && k !in Excluded))
    && var loc := Get(up.headers, "Location");
       if up.status in RedirectStatuses && loc.Some? && RewriteLocation(loc.value).Some? then
         "location" in response.headers
         && response.headers["location"] == Header("Location", RewriteLocation(loc.value).value)
       else
         ("location" in response.headers <==> "location" in up.headers)
         && ("location" in up.headers ==> response.headers["location"] == up.headers["location"])
  }

  /** The success path of `proxy`: copy, redirect handling, CORS. */
  method Relay(up: Upstream) returns (response: Response)
    ensures IsRelayed(up, response)
  {
    var copied := CopyResponseHeaders(up.headers, Excluded);
    var redirected := ApplyRedirect(copied, up);
    var headers := WithCors(redirected);
    LocationPassesFilters();
    assert "location" in redirected ==> "location" in headers && headers["location"] == redirected["location"];
    response := Response(up.status, headers, Content(up.content));
  }

  /** app.py's redirect step on the copied headers: for a redirect status
      with a `Location` the rewriter moves, `Location` is replaced; nothing
      else changes. */
  function ApplyRedirect(headers: HeaderMap, up: Upstream): (r: HeaderMap)
    ensures forall k :: k != "location" ==> (k in r <==> k in headers)
    ensures forall k :: k != "location" && k in r ==> r[k] == headers[k]
    ensures var loc := Get(up.headers, "Location");
            if up.status in RedirectStatuses && loc.Some? && RewriteLocation(loc.value).Some? then
              "location" in r && r["location"] == Header("Location", RewriteLocation(loc.value).value)
            else
              r == headers
  {
    LowerLocation();
    if up.status in RedirectStatuses && "location" in up.headers then
      match RewriteLocation(up.headers["location"].value)
      case Some(target) => Set(headers, "Location", target)
      case None => headers
    else
      headers
  }

  /** app.py's CORS step: the three `Access-Control-Allow-*` headers are set,
      replacing any copied from upstream; nothing else changes. */
  function WithCors(headers: HeaderMap): (r: HeaderMap)
    ensures Get(r, "Access-Control-Allow-Origin") == Some("*")
    ensures Get(r, "Access-Control-Allow-Methods") == Some(AllowMethods)
    ensures Get(r, "Access-Control-Allow-Headers") == Some(AllowHeaders)
    ensures CorsKeys <= r.Keys
    ensures forall k :: k !in CorsKeys ==> (k in r <==> k in headers)
    ensures forall k :: k !in CorsKeys && k in r ==> r[k] == headers[k]
  {
    LowerAllowOrigin();
    LowerAllowMethods();
    LowerAllowHeaders();
    assert "access-control-allow-methods"[21] != "access-control-allow-headers"[21];
    var r := Set(headers, "Access-Control-Allow-Origin", "*");
    var r := Set(r, "Access-Control-Allow-Methods", AllowMethods);
    Set(r, "Access-Control-Allow-Headers", AllowHeaders)
  }

  /** Lower-cased names of the CORS headers app.py sets. */
  const CorsKeys: set<string> :=
    {"access-control-allow-origin", "access-control-allow-methods", "access-control-allow-headers"}

  /** `Location` is neither excluded nor one of the CORS headers. */
  lemma LocationPassesFilters()
    ensures "location" !in Excluded && "location" !in CorsKeys
  {
    assert forall k :: k in Excluded + CorsKeys ==> |k| != 8;
  }
}
