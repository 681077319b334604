/** The session-aware variant of the proxy (`proxy` in
    proxy_with_session.py): resolves the client's session, forwards the
    request minus `Host`, `Cookie` and `Content-Length`, copies the reply
    back minus an 11-name exclusion set, echoes the caller's `Origin` in the
    CORS headers, keeps redirects to any host ending in `linkedin.com` inside
    the proxy by parsing the target, and evicts idle sessions on success. */
module SessionProxy {
  import opened Wrappers
  import opened Strings
  import opened Http
  import opened Url
  import opened Sessions

  /** Lower-cased names of the inbound headers not forwarded. */
  const Dropped: set<string> := {"host", "cookie", "content-length"}

  /** Lower-cased names of the upstream headers not copied to the client:
      the hop-by-hop headers of section 13.5.1 of RFC 2616 plus
      `content-encoding`, `content-length` and `content-security-policy`. */
  const Excluded: set<string> :=
    {"content-encoding", "content-length", "transfer-encoding", "connection", "keep-alive",
     "proxy-authenticate", "proxy-authorization", "te", "trailers", "upgrade",
     "content-security-policy"}

  /** Redirect targets whose authority ends with this stay in the proxy. */
  const SiteSuffix := "linkedin.com"

  const AllowMethods := "GET, POST, PUT, DELETE, OPTIONS"
  const AllowHeaders := "Content-Type, Authorization, X-Requested-With"

  /** Lower-cased names of the CORS headers this variant sets. */
  const CorsKeys: set<string> :=
    {"access-control-allow-origin", "access-control-allow-methods",
     "access-control-allow-headers", "access-control-allow-credentials"}

  /** The outbound request headers: the inbound ones except those named
      `host`, `cookie` or `content-length` in any letter case; the rest keep
      their names and values. */
  method BuildRequestHeaders(inbound: HeaderMap) returns (sent: map<string, string>)
    ensures forall k :: k in inbound && k !in Dropped ==>
              inbound[k].name in sent && sent[inbound[k].name] == inbound[k].value
    ensures forall n :: n in sent ==>
              Lower(n) !in Dropped && Lower(n) in inbound && inbound[Lower(n)].name == n
              && sent[n] == inbound[Lower(n)].value
  {
    sent := ForwardRequestHeaders(inbound, n => Lower(n) !in Dropped);
  }

  /** The `Location` this variant writes for an upstream redirect target
      `loc`: None when it leaves the copied header alone, a failure when
      `Parse` rejects it. A relative target is put under the proxy prefix; an
      absolute one is decided on its parsed form by `RewriteParsed`. */
  function RewriteLocation(loc: string): (r: Result<Option<string>>)
    ensures !StartsWith(loc, "http") ==>
              r.Success? && r.value.Some? && StartsWith(r.value.value, ProxyPrefix)
              && r.value.value[|ProxyPrefix|..] == loc
    ensures StartsWith(loc, "http") ==>
              match Parse(loc)
              case Failure(e) => r == Failure(e)
              case Success(u) => r == Success(RewriteParsed(u))
    // an absolute target fails only where `Parse` does, and is kept in
    // the proxy exactly when its authority ends with `linkedin.com`
    ensures StartsWith(loc, "http") ==> (r.Failure? <==> Parse(loc).Failure?)
    ensures StartsWith(loc, "http") && r.Success? ==>
              (r.value.Some? <==> EndsWith(Parse(loc).value.Netloc(), SiteSuffix))
  {
    if StartsWith(loc, "http") then
      match Parse(loc)
      case Failure(e) => Failure(e)
      case Success(u) => Success(RewriteParsed(u))
    else
      Success(Some(ProxyPrefix + loc))
  }

  /** The absolute-target branch: a target whose authority ends with
      `linkedin.com` becomes the proxy prefix followed by its path and, when
      not empty, its query; scheme, authority, parameters and fragment are
      dropped. Any other target is left alone (None). */
  function RewriteParsed(u: Url): (r: Option<string>)
    ensures r.None? <==> !EndsWith(u.Netloc(), SiteSuffix)
    ensures r.Some? ==>
              StartsWith(r.value, ProxyPrefix)
              && r.value[|ProxyPrefix|..] == Compose(Url(None, None, u.path, None, NonEmpty(u.Query()), None))
  {
    if EndsWith(u.Netloc(), SiteSuffix) then
      Some(ProxyPrefix + u.path + (if u.Query() != "" then "?" + u.Query() else ""))
    else
      None
  }

  /** A query as `Compose` writes it: none at all when empty. */
  function NonEmpty(s: string): Option<string> {
    if s == "" then None else Some(s)
  }

  /** The redirect step's outcome for upstream reply `up`: the new
      `Location`, None to leave headers alone, or the parse failure. */
  function RedirectOutcome(up: Upstream): Result<Option<string>> {
    var loc := Get(up.headers, "Location");
    if up.status in RedirectStatuses && loc.Some? then RewriteLocation(loc.value) else Success(None)
  }

  /** What one call of `proxy(path)` leaves behind: the store, the new
      session id to write into the client's session cookie (when one was
      created), the headers sent upstream, and the response. */
  datatype Exchange = Exchange(store: Store, newSession: Option<string>,
                               sent: map<string, string>, response: Response)

  /** One request through `proxy(path)`. The session is resolved first, so a
      failure still leaves a newly created session in the store; only a
      successful call runs the idle clean-up (at clock reading `cleanupAt`). */
  method Proxy(store: Store, cookie: Option<string>, now: int, random: seq<byte>, choice: nat,
               inbound: HeaderMap, dispatch: Result<Upstream>, cleanupAt: int) returns (x: Exchange)
    requires |random| == 16
    requires choice < |UserAgents|
    ensures var s := GetSessionObject(store, cookie, now, random, choice);
            x.newSession == (if s.created then Some(s.sessionId) else None)
    ensures forall n :: n in x.sent ==> Lower(n) !in Dropped
    ensures forall k :: k in inbound && k !in Dropped ==>
              inbound[k].name in x.sent && x.sent[inbound[k].name] == inbound[k].value
    ensures IsAnswered(GetSessionObject(store, cookie, now, random, choice).store, dispatch,
                       Get(inbound, "Origin").GetOr("*"), cleanupAt, x.store, x.response)
    // the session just used survives a clean-up that runs within the limit
    ensures cleanupAt - now <= IdleLimit ==>
              GetSessionObject(store, cookie, now, random, choice).sessionId in x.store
  {
    var s := GetSessionObject(store, cookie, now, random, choice);
    var newSession := if s.created then Some(s.sessionId) else None;
    var sent := BuildRequestHeaders(inbound);
    var kept, response := Answer(s.store, dispatch, Get(inbound, "Origin").GetOr("*"), cleanupAt);
    x := Exchange(kept, newSession, sent, response);
    assert s.store[s.sessionId].lastUsed == now;
  }

  /** The outcome of `proxy` once the session is resolved (store `store`):
      a failed dispatch, or a redirect target `urlparse` rejects, gives a 500
      carrying the message and leaves the store alone; otherwise the reply is
      relayed and idle sessions are evicted at `cleanupAt`. */
  ghost predicate IsAnswered(store: Store, dispatch: Result<Upstream>, origin: string, cleanupAt: int,
                             kept: Store, response: Response)
  {
    match dispatch
    case Failure(e) => response == ErrorResponse(e) && kept == store
    case Success(up) =>
      match RedirectOutcome(up)
      case Failure(e) => response == ErrorResponse(InvalidIpv6) && kept == store
      case Success(_) => IsRelayed(up, origin, response) && kept == Evict(store, cleanupAt)
  }

  /** Everything `proxy` does after resolving the session. */
  method Answer(store: Store, dispatch: Result<Upstream>, origin: string, cleanupAt: int)
    returns (kept: Store, response: Response)
    ensures IsAnswered(store, dispatch, origin, cleanupAt, kept, response)
    // whatever the outcome, a session used within the limit is kept as is
    ensures forall id :: id in store && cleanupAt - store[id].lastUsed <= IdleLimit ==>
              id in kept && kept[id] == store[id]
  {
    match dispatch
    case Failure(e) =>
      kept, response := store, ErrorResponse(e);
    case Success(up) =>
      match RedirectOutcome(up)
      case Failure(e) =>
        kept, response := store, ErrorResponse(e);
      case Success(target) =>
        LowerLocation();
        response := Relay(up, origin, target);
        kept := CleanupOldSessions(store, cleanupAt);
  }

  /** What the client receives for upstream reply `up` when the caller's
      `Origin` (or `*`) is `origin`: status and body as upstream sent them;
      the four CORS headers overriding upstream's; every other upstream
      header outside the exclusion set as is, and nothing else; and
      `Location` replaced only when the redirect step produced one. */
  ghost predicate IsRelayed(up: Upstream, origin: string, response: Response)
    requires RedirectOutcome(up).Success?
  {
    IsRelayedWith(up, origin, RedirectOutcome(up).value, response)
  }

  /** `IsRelayed` once the redirect step's outcome `target` is known. */
  ghost predicate IsRelayedWith(up: Upstream, origin: string, target: Option<string>, response: Response) {
    && response.status == up.status
    && response.body == Content(up.content)
    && Get(response.headers, "Access-Control-Allow-Origin") == Some(origin)
    && Get(response.headers, "Access-Control-Allow-Methods") == Some(AllowMethods)
    && Get(response.headers, "Access-Control-Allow-Headers") == Some(AllowHeaders)
    && Get(response.headers, "Access-Control-Allow-Credentials") == Some("true")
    && (forall k :: k in up.headers && k !in Excluded && k !in CorsKeys && k != "location" ==>
          k in response.headers && response.headers[k] == up.headers[k])
    && (forall k :: k in response.headers ==> k in CorsKeys || (k in up.headers && k !in Excluded))
    && match target
       case Some(t) =>
         "location" in response.headers && response.headers["location"] == Header("Location", t)
       case None =>
         ("location" in response.headers <==> "location" in up.headers)
         && ("location" in up.headers ==> response.headers["location"] == up.headers["location"])
  }

  /** The success path of `proxy`: copy, CORS, then the redirect step. */
  method Relay(up: Upstream, origin: string, target: Option<string>) returns (response: Response)
    requires target.Some? ==> "location" in up.headers
    ensures IsRelayedWith(up, origin, target, response)
  {
    var copied := CopyResponseHeaders(up.headers, Excluded);
    var withCors := WithCors(copied, origin);
    var headers := WithLocation(withCors, target);
    LocationPassesFilters();
    assert "location" in copied ==> "location" in withCors && withCors["location"] == copied["location"];
    response := Response(up.status, headers, Content(up.content));
  }

  /** The redirect step's effect on the headers: `Location` set to the new
      target when there is one; nothing else changes. */
  function WithLocation(headers: HeaderMap, target: Option<string>): (r: HeaderMap)
    ensures forall k :: k != "location" ==> (k in r <==> k in headers)
    ensures forall k :: k != "location" && k in r ==> r[k] == headers[k]
    ensures match target
            case Some(t) => "location" in r && r["location"] == Header("Location", t)
            case None => r == headers
  {
    LowerLocation();
    match target
    case Some(t) => Set(headers, "Location", t)
    case None => headers
  }

  /** This variant's CORS step: the four `Access-Control-Allow-*` headers
      are set, the origin one to `origin`, replacing any copied from upstream;
      nothing else changes. */
  function WithCors(headers: HeaderMap, origin: string): (r: HeaderMap)
    ensures Get(r, "Access-Control-Allow-Origin") == Some(origin)
    ensures Get(r, "Access-Control-Allow-Methods") == Some(AllowMethods)
    ensures Get(r, "Access-Control-Allow-Headers") == Some(AllowHeaders)
    ensures Get(r, "Access-Control-Allow-Credentials") == Some("true")
    ensures CorsKeys <= r.Keys
    ensures forall k :: k !in CorsKeys ==> (k in r <==> k in headers)
    ensures forall k :: k !in CorsKeys && k in r ==> r[k] == headers[k]
  {
    LowerAllowOrigin();
    LowerAllowMethods();
    LowerAllowHeaders();
    LowerAllowCredentials();
    assert "access-control-allow-methods"[21] != "access-control-allow-headers"[21];
    var r := Set(headers, "Access-Control-Allow-Origin", origin);
    var r := Set(r, "Access-Control-Allow-Methods", AllowMethods);
    var r := Set(r, "Access-Control-Allow-Headers", AllowHeaders);
    Set(r, "Access-Control-Allow-Credentials", "true")
  }

  /** `Location` is neither excluded nor one of the CORS headers. */
  lemma LocationPassesFilters()
    ensures "location" !in Excluded && "location" !in CorsKeys
  {
    assert "location"[0] != "trailers"[0];
    assert forall k :: k in Excluded + CorsKeys && k != "trailers" ==> |k| != 8;
  }
}
