# LinkedIn reverse proxy, modelled in Dafny

The repository is a small Flask reverse proxy. It serves `https://www.linkedin.com`
under the path prefix `/linkedin`. Two variants of the proxy exist:

- **app.py** (`proxy`). It forwards each request with a fixed block of browser-mimicry
  headers and every inbound header except the one named `Host`. It copies the reply
  back minus four excluded headers. A redirect whose `Location` starts with the
  origin text, or is relative, is moved under `/linkedin`. Three permissive CORS
  headers are added, and any failure of the dispatch becomes a 500 `Proxy error: …`.
- **proxy_with_session.py** (`proxy`, `get_session_object`, `cleanup_old_sessions`).
  It keeps an in-memory store of sessions. Each session is a reusable outbound
  client with its own header overlay, user agent and cookie jar, plus the time it
  was last used.
  - A request reuses the session named in the client's signed cookie, or creates
    one under `os.urandom(16).hex()`.
  - It forwards every inbound header except `Host`, `Cookie` and `Content-Length`,
    ignoring letter case.
  - It copies the reply back minus an 11-name exclusion set.
  - It echoes the caller's `Origin` in four CORS headers.
  - It parses absolute redirect targets with `urlparse`, and keeps those whose
    authority ends with `linkedin.com` inside the proxy, as path and query only.
  - After a successful reply it evicts every session idle for more than 1800 seconds.

The model's modules follow that structure:

- `Wrappers`: `Option` and `Result`.
- `Strings`: Python's `str.lower`, `startswith`, `endswith` and searching, on `seq<char>`.
- `Http`: case-insensitive header collections and Werkzeug's `headers[k] = v`. It also
  holds the upstream reply, the response, the error response, and the two
  header-copying loops both variants run.
- `Url`: the text-level steps of Python 3.12's `urlparse`. That means C0 and space
  stripping, tab/CR/LF removal, scheme, `//` authority, fragment, query, and `;params`
  of the last segment. It also raises the `Invalid IPv6 URL` error for an unmatched
  bracket, text before the `[`, or text after the `]` that is not a `:` port. It gives
  an exact inverse `Compose` and round-trip lemmas in both directions. The address
  check of a bracketed host and the NFKC check are left out (see below).
- `Sessions`: the session store as a value. Get-or-create, hex ids with their inverse,
  idle eviction as a loop and as a reference map comprehension, and session affinity.
- `AppProxy` and `SessionProxy`: the two `proxy` functions, from inbound headers and
  dispatch outcome to outbound headers, response and (for the session variant) the
  new store.
- `Divergence`: where the two variants' redirect handling agrees and where it differs.
  It covers every plain path, query and fragment, not only sample URLs.

Effects are inputs. These are:

- the clock reading (`now` when the session is resolved, `cleanupAt` when the clean-up runs);
- the 16 random bytes of a new id;
- the index of the random user agent;
- the outcome of the upstream dispatch, as `Result<Upstream>` whose failure carries `str(e)`.

## Model

| member | source | states |
|---|---|---|
| Http.Set | proxy_with_session.py:124-126 | after `headers[name] = value`, a lookup of `name` in any letter case gives `value`; the entry takes `name`'s spelling; every header with a different lower-cased name is untouched; the key set grows by at most that name |
| Http.ForwardRequestHeaders | proxy_with_session.py:94-97 | every inbound header whose name passes the filter is in the outbound dict under the client's spelling with its value, and every outbound entry is such a header (both directions) |
| Http.CopyResponseHeaders | proxy_with_session.py:124-126 | a header is in the copy exactly when upstream sent it and its lower-cased name is not excluded, and it keeps upstream's name and value |
| Http.ErrorResponse | app.py:93-96 | a failure becomes status 500 whose text body is `Proxy error: ` followed by exactly the failure's message |
| AppProxy.BuildRequestHeaders | app.py:33-47 | no outbound key is `Host`; every mimicry header is sent with its fixed value, overriding the client's same-spelled one; every other inbound header is forwarded unchanged; nothing outside the mimicry block comes from anywhere but the client |
| AppProxy.RewriteLocation | app.py:71-84 | a target is left alone exactly when it starts with `http` but not with the origin; a rewritten target always starts with `/linkedin`; swapping `/linkedin` back for the origin (absolute) or dropping it (relative) recovers the original target |
| AppProxy.ApplyRedirect | app.py:71-84 | for a 301/302/303/307/308 reply whose `Location` the rewriter moves, `Location` becomes the rewritten target; otherwise, and for every other header, the copied headers are unchanged |
| AppProxy.WithCors | app.py:86-89 | the three CORS headers hold `*`, the method list and the header list, replacing upstream's; no other header is added, removed or changed |
| AppProxy.Relay | app.py:62-91 | status and body are upstream's; each non-excluded, non-CORS upstream header is present unchanged and no header other than the CORS ones is invented; `Location` is replaced only on a moved redirect |
| AppProxy.Proxy | app.py:21-96 | the request side never sends `Host` and always sends the mimicry block; a failed dispatch yields the 500 error response, a successful one the relayed reply |
| Url.Parse | proxy_with_session.py:140 | the modelled `urlparse` fails only with `Invalid IPv6 URL`; a parsed authority never holds `/`, `?` or `#`, and a parsed path never holds `?` or `#` |
| Url.ComposeParse | proxy_with_session.py:140 | for clean text that parses, composing the parsed components gives back the text: splitting drops nothing |
| Url.ParseCompose | proxy_with_session.py:140 | parsing the composition of a plain absolute URL, `;params` included, gives back exactly its components |
| Url.ParseComposeRejects | proxy_with_session.py:140 | the same composition fails with `Invalid IPv6 URL` when its authority has one bracket without the other, text before the `[`, or text after the `]` that is not a `:` port; with `ParseCompose`, it parses exactly when the authority passes |
| Sessions.NewClient | proxy_with_session.py:48-66 | a new session's client carries the chosen user agent and an empty cookie jar |
| Sessions.NewClientsDifferOnlyInUserAgent | proxy_with_session.py:52-66 | two new sessions have the same header names and agree on every header but `User-Agent` |
| Sessions.Hex | proxy_with_session.py:45 | the hex id is two lower-case hex digits per random byte |
| Sessions.UnhexHex | proxy_with_session.py:45 | decoding the hex id gives back the random bytes, so distinct random bytes give distinct ids |
| Sessions.Put | proxy_with_session.py:68-75 | the store holds the client under the id with `last_used` set to now; every other record is unchanged |
| Sessions.CreateSession | proxy_with_session.py:43-72 | a created session is filed under the 32-digit hex of the random bytes, with a fresh client |
| Sessions.GetSessionObject | proxy_with_session.py:39-77 | a session is created exactly when the cookie is absent, empty or unknown; the returned client is the stored one with `last_used` = now; reuse keeps id, client and key set; creation uses the random id and a fresh client; no other record changes; a store of valid ids stays valid |
| Sessions.CleanupOldSessions | proxy_with_session.py:164-180 | a session survives exactly when now minus its `last_used` is at most 1800, survivors are unchanged, and the result equals the reference eviction |
| Sessions.EvictIdempotent | proxy_with_session.py:164-180 | a second clean-up at the same time removes nothing more |
| Sessions.EvictPreservesValidity | proxy_with_session.py:164-180 | eviction keeps every stored id a valid session id |
| Sessions.SessionAffinity | proxy_with_session.py:43-75 | a client presenting the id it was given, after a clean-up within 1800 seconds of its last use, is not given a new session and gets the same client back |
| SessionProxy.BuildRequestHeaders | proxy_with_session.py:93-97 | no outbound header is named `host`, `cookie` or `content-length` in any case; every other inbound header is forwarded unchanged, and nothing else is sent |
| SessionProxy.RewriteLocation | proxy_with_session.py:135-148 | a relative target becomes `/linkedin` followed by the target itself; an absolute one fails exactly when the modelled `urlparse` fails, and otherwise is kept in the proxy exactly when its parsed authority ends with `linkedin.com`, in the form `RewriteParsed` gives |
| SessionProxy.RewriteParsed | proxy_with_session.py:140-145 | a parsed target is moved exactly when its authority ends with `linkedin.com`, and then becomes `/linkedin` followed by its path and its query only when non-empty |
| SessionProxy.WithCors | proxy_with_session.py:128-132 | the four CORS headers hold the caller's origin, the method list, the header list and `true`, replacing upstream's; nothing else changes |
| SessionProxy.WithLocation | proxy_with_session.py:143-148 | `Location` is set to the rewritten target when there is one; otherwise, and for every other header, nothing changes |
| SessionProxy.Relay | proxy_with_session.py:116-148 | status and body are upstream's; each non-excluded, non-CORS upstream header is present unchanged and nothing is invented; `Location` is replaced only when the redirect step produced a target |
| SessionProxy.Answer | proxy_with_session.py:103-157 | a failed dispatch or a rejected redirect target gives the 500 response and skips the clean-up; otherwise the reply is relayed and idle sessions are evicted; either way a session used within 1800 seconds of the clean-up is kept unchanged |
| SessionProxy.Proxy | proxy_with_session.py:79-157 | the session is resolved before anything else, so a new session is reported and stored even when the request then fails; the request-side filter and the outcome of `Answer` hold; the session just used survives the call's clean-up when it runs within 1800 seconds |
| Divergence.AppOnOrigin | app.py:76-78 | app.py moves any target starting with the origin text, keeping everything after it verbatim |
| Divergence.SessionOnTarget | proxy_with_session.py:139-145 | on any plain `http`/`https` target, the session variant moves it exactly when the host ends with `linkedin.com`, to `/linkedin` plus path and query, dropping the fragment |
| Divergence.AgreeOnOrigin | app.py:74-78 | on an `https` target at the origin with a plain path and query, both variants write the same `Location` |
| Divergence.BareDomainTarget | app.py:76-81 | a redirect to `https://linkedin.com/…` is passed through by app.py but kept inside the proxy by the session variant |
| Divergence.PlainHttpTarget | app.py:76-81 | a redirect to `http://www.linkedin.com/…` is passed through by app.py but kept inside the proxy by the session variant |
| Divergence.LookalikeHostTarget | proxy_with_session.py:142 | a redirect to `https://evillinkedin.com/…` is passed through by app.py, while the session variant serves its path from the origin |
| Divergence.OriginPrefixedHostTarget | app.py:76-78 | a redirect to `https://www.linkedin.com.evil.com/…` is moved by app.py to `/linkedin.evil.com/…`, while the session variant passes it through |
| Divergence.FragmentTarget | proxy_with_session.py:143-145 | on the origin, app.py keeps a target's fragment and the session variant drops it |
| Divergence.EmptyQueryTarget | proxy_with_session.py:143-145 | on the origin, app.py keeps the `?` of an empty query and the session variant drops it |
| Divergence.ParamsTarget | proxy_with_session.py:140-145 | on the origin, app.py keeps the `;params` of the last path segment and the session variant drops them, since `urlparse` splits them off the path |
| Divergence.TargetRejected | proxy_with_session.py:139-140 | on any plain `http`/`https` target whose authority `urlparse` rejects, the session variant's rewrite fails with `Invalid IPv6 URL` |
| Divergence.BracketedHostTarget | proxy_with_session.py:139-140 | a redirect to `https://x[::1]linkedin.com/…` is passed through by app.py, while the session variant's rewrite fails with `Invalid IPv6 URL`, so it answers 500 |

## Left out

- Flask routing, the `PORT` environment variable, the health check and the HTML pages
  are not part of this model. The same goes for `proxy_root` (it only calls `proxy`)
  and the login flow.
- The upstream dispatch (`requests.request` / `Session.request`) is an input, not modelled.
  That covers `urljoin` of the target URL, query parameters, the body, inbound cookies,
  timeouts (10 and 20 seconds), TLS and redirects being off. It also covers how
  `requests` merges a session's header overlay with the per-request headers (where a
  request header wins) and fills the cookie jar.
- Logging and `print` are left out: they have no effect on results.
- Werkzeug adds a default `Content-Type` and computes `Content-Length` for a new
  `Response`. The model's response holds only the headers the proxy sets. Header order
  is not modelled either.
- Repeated inbound or upstream headers are not modelled: a header collection holds one
  entry per name ignoring case. Flask spells inbound names in title case (so a client's
  `host` arrives as `Host`), but the model accepts any spelling, which is more general.
- `Lower` is `str.lower` on ASCII and Latin-1 letters only. Other scripts' case mappings
  are left out, since every header name and scheme involved is ASCII.
- Url.Parse: two of the checks Python 3.12's `urlsplit` runs on the authority are
  left out, so the model accepts some targets that `urlparse` rejects.
  - The address check of a bracketed host (`_check_bracketed_host`) is left out,
    because it needs the `ipaddress` module's IPv4 and IPv6 grammar. A target such as
    `https://[abc]/x` parses in the model, but raises in Python with the error
    message of `ipaddress`.
  - The NFKC check of a non-ASCII authority (`_checknetloc`) is left out. Header
    values reach the proxy decoded as Latin-1, and no Latin-1 character's NFKC form
    holds `/`, `?`, `#`, `@` or `:`, so that check cannot fire on a `Location` value.
    The model does not limit its strings to Latin-1.
  - The port and user-info accessors are left out as well, since the proxy does not
    read them.
- Concurrency is left out: the store is a value threaded through one request at a time.
  The source's dictionary is shared between Flask worker threads without a lock.
- `time.time()` returns a float. The model uses integer seconds: the 1800-second
  comparison is the same for whole-second clocks.
- Sessions.NewClient: the contract names the user agent and the empty jar. The other
  twelve overlay values are given only by `FixedOverlay`'s definition, which sets every
  header `requests.Session()` has by default and so replaces all of them.
- The session variant does not write the mimicry block per request. The session's
  overlay stands in for it, so a client header of the same name wins at dispatch.
  app.py drops only a header spelled exactly `Host` and forwards `Cookie` and
  `Content-Length`. A dispatch failure gives status 500, not 502. Each of these
  follows the code.
- Counting and describing sessions are not modelled: neither variant has such an operation.
