/** HTTP vocabulary shared by both proxy variants: case-insensitive header
    collections, the upstream reply the dispatch step produces, the response
    handed back to the client, and the two header-copying loops. */
module Http {
  import opened Wrappers
  import opened Strings

  datatype Header = Header(name: string, value: string)

  /** A case-insensitive header collection, as Flask's request headers,
      requests' `CaseInsensitiveDict` and Werkzeug's response `Headers` are:
      each entry is filed under its lower-cased name, so there is at most one
      entry per name ignoring case, and it keeps the name's spelling. */
  type HeaderMap = h: map<string, Header> | forall k :: k in h ==> k == Lower(h[k].name)

  /** `headers.get(name)`: the value filed under `name`, ignoring case. */
  function Get(h: HeaderMap, name: string): Option<string> {
    if Lower(name) in h then Some(h[Lower(name)].value) else None
  }

  /** `headers[name] = value`: replaces the entry whose name equals `name`
      ignoring case (taking `name`'s spelling), or adds one. */
  function Set(h: HeaderMap, name: string, value: string): (r: HeaderMap)
    ensures Get(r, name) == Some(value)
    ensures r[Lower(name)] == Header(name, value)
    ensures forall n :: Lower(n) != Lower(name) ==> Get(r, n) == Get(h, n)
    ensures r.Keys == h.Keys + {Lower(name)}
    ensures forall k :: k in h && k != Lower(name) ==> r[k] == h[k]
  {
    h[Lower(name) := Header(name, value)]
  }

  type byte = x: int | 0 <= x < 0x100

  /** A response body: bytes relayed from upstream, or text the proxy wrote. */
  datatype Body = Content(bytes: seq<byte>) | Text(text: string)

  /** What the upstream origin answered (`resp`): the dispatch itself is not
      part of this model, its outcome is an input. */
  datatype Upstream = Upstream(status: int, headers: HeaderMap, content: seq<byte>)

  /** The response handed back to the client. */
  datatype Response = Response(status: int, headers: HeaderMap, body: Body)

  /** The redirect codes whose `Location` the proxy rewrites (section 15.4
      of RFC 9110). */
  const RedirectStatuses: set<int> := {301, 302, 303, 307, 308}

  /** The path under which the proxy serves the upstream origin. */
  const ProxyPrefix := "/linkedin"

  const ErrorStatus := 500
  const ErrorPrefix := "Proxy error: "

  /** `Response(f"Proxy error: {str(e)}", status=500)` */
  function ErrorResponse(message: string): (r: Response)
    ensures r.status == ErrorStatus && r.body.Text?
    ensures StartsWith(r.body.text, ErrorPrefix) && r.body.text[|ErrorPrefix|..] == message
  {
    Response(ErrorStatus, map[], Text(ErrorPrefix + message))
  }

  /** The lower-cased names of the response headers both variants set. */
  lemma LowerLocation() ensures Lower("Location") == "location" {}
  lemma LowerAllowOrigin() ensures Lower("Access-Control-Allow-Origin") == "access-control-allow-origin" {}
  lemma LowerAllowMethods() ensures Lower("Access-Control-Allow-Methods") == "access-control-allow-methods" {}
  lemma LowerAllowHeaders() ensures Lower("Access-Control-Allow-Headers") == "access-control-allow-headers" {}
  lemma LowerAllowCredentials()
    ensures Lower("Access-Control-Allow-Credentials") == "access-control-allow-credentials"
  {}

  /** The request-side loop both variants run: every inbound header whose
      name passes `keep` goes into a plain (case-sensitive) dictionary,
      keyed by the name as the client spelled it, with its value unchanged;
      nothing else does. */
  method ForwardRequestHeaders(inbound: HeaderMap, keep: string -> bool) returns (sent: map<string, string>)
    ensures forall k :: k in inbound && keep(inbound[k].name) ==>
              inbound[k].name in sent && sent[inbound[k].name] == inbound[k].value
    ensures forall n :: n in sent ==>
              Lower(n) in inbound && inbound[Lower(n)].name == n && keep(n) && sent[n] == inbound[Lower(n)].value
  {
    sent := map[];
    var todo := inbound.Keys;
    while todo != {}
      invariant todo <= inbound.Keys
      invariant forall k :: k in inbound && k !in todo && keep(inbound[k].name) ==>
                  inbound[k].name in sent && sent[inbound[k].name] == inbound[k].value
      invariant forall n :: n in sent ==>
                  Lower(n) in inbound && Lower(n) !in todo && inbound[Lower(n)].name == n && keep(n)
                  && sent[n] == inbound[Lower(n)].value
      decreases todo
    {
      var k :| k in todo;
      var h := inbound[k];
      if keep(h.name) {
        sent := sent[h.name := h.value];
      }
      todo := todo - {k};
    }
  }

  /** The response-side loop both variants run: every upstream header whose
      lower-cased name is outside `excluded` is set on the response, and
      nothing else is. */
  method CopyResponseHeaders(upstream: HeaderMap, excluded: set<string>) returns (copied: HeaderMap)
    ensures forall k :: k in copied <==> k in upstream && k !in excluded
    ensures forall k :: k in copied ==> copied[k] == upstream[k]
  {
    copied := map[];
    var todo := upstream.Keys;
    while todo != {}
      invariant todo <= upstream.Keys
      invariant forall k :: k in copied <==> k in upstream && k !in todo && k !in excluded
      invariant forall k :: k in copied ==> copied[k] == upstream[k]
      decreases todo
    {
      var k :| k in todo;
      var h := upstream[k];
      if Lower(h.name) !in excluded {
        copied := Set(copied, h.name, h.value);
      }
      todo := todo - {k};
    }
  }
}
