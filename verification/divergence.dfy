/** How the two variants' redirect handling relates. app.py decides by
    string prefix against the origin `https://www.linkedin.com`;
    proxy_with_session.py parses the target and tests whether its authority
    ends with `linkedin.com`. They agree on the ordinary case, a path and
    query on the origin itself, and part ways on the targets below: other
    hosts and schemes, fragments, empty queries, `;params`, and authorities
    `urlparse` rejects. The list is of the cases proved here and is not
    exhaustive: a bracketed host that `urlparse` rejects only by its address
    check is one the model does not cover. */
module Divergence {
  import opened Wrappers
  import opened Strings
  import opened Http
  import opened Url
  import AppProxy
  import SessionProxy

  /** A path and query `Parse` splits off as they are: the path is empty or
      starts with `/` and holds none of `;`, `?`, `#`; the query, when
      present, holds no `#`; neither holds a tab, carriage return or line
      feed. */
  predicate IsPlainPathQuery(path: string, query: Option<string>) {
    && (|path| == 0 || path[0] == '/')
    && (forall j :: 0 <= j < |path| ==> path[j] !in {';', '?', '#'} && !IsUnsafe(path[j]))
    && (query.Some? ==> forall j :: 0 <= j < |query.value| ==> query.value[j] != '#' && !IsUnsafe(query.value[j]))
  }

  /** A path and query both variants carry alike: plain, and a query, when
      present, that is not empty. */
  predicate IsPlainTail(path: string, query: Option<string>) {
    IsPlainPathQuery(path, query) && query != Some("")
  }

  /** On a target at the origin with a plain path and query, both variants
      write the same `Location`: the proxy prefix followed by that path and
      query. */
  lemma AgreeOnOrigin(path: string, query: Option<string>)
    requires IsPlainTail(path, query)
    ensures var loc := Target("https", "www.linkedin.com", path, query, None);
            && AppProxy.RewriteLocation(loc) == Some(ProxyPrefix + (path + Tagged("?", query)))
            && SessionProxy.RewriteLocation(loc) == Success(Some(ProxyPrefix + (path + Tagged("?", query))))
  {
    OriginHostInSite();
    OriginTarget("https", "www.linkedin.com", path, query, None);
    AppOnOrigin(path + Tagged("?", query));
    SessionOnTarget("https", "www.linkedin.com", path, query, None);
  }

  /** app.py moves any target that starts with the origin text, keeping
      everything after it. */
  lemma AppOnOrigin(tail: string)
    ensures AppProxy.RewriteLocation(AppProxy.TargetUrl + tail) == Some(ProxyPrefix + tail)
  {
    var loc := AppProxy.TargetUrl + tail;
    assert loc[..|AppProxy.TargetUrl|] == AppProxy.TargetUrl;
    assert loc[..4] == "http";
  }

  /** A host name `Parse` splits off as the whole authority. */
  predicate HasPlainHostChars(host: string) {
    forall j :: 0 <= j < |host| ==> host[j] !in AuthorityEnd && !IsUnsafe(host[j])
  }

  /** Such a host name that `urlsplit` also accepts. */
  predicate IsPlainHost(host: string) {
    HasPlainHostChars(host) && !IsInvalidIpv6Netloc(host)
  }

  /** A fragment with no tab, carriage return or line feed. */
  predicate IsPlainFragment(fragment: Option<string>) {
    fragment.Some? ==> forall j :: 0 <= j < |fragment.value| ==> !IsUnsafe(fragment.value[j])
  }

  /** The text of an absolute target. */
  function Target(scheme: string, host: string, path: string, query: Option<string>, fragment: Option<string>): string {
    scheme + ("://" + host + (path + Tagged("?", query)) + Tagged("#", fragment))
  }

  /** proxy_with_session.py on a plain `http` or `https` target: kept in the
      proxy exactly when the host ends with `linkedin.com`, and then as the
      prefix, path and query only. */
  lemma SessionOnTarget(scheme: string, host: string, path: string, query: Option<string>, fragment: Option<string>)
    requires scheme == "http" || scheme == "https"
    requires IsPlainHost(host) && IsPlainTail(path, query) && IsPlainFragment(fragment)
    ensures SessionProxy.RewriteLocation(Target(scheme, host, path, query, fragment))
            == Success(if EndsWith(host, SessionProxy.SiteSuffix) then Some(ProxyPrefix + (path + Tagged("?", query))) else None)
  {
    var u := Url(Some(scheme), Some(host), path, None, query, fragment);
    TargetParses(scheme, host, path, query, fragment);
    SessionOnParsed(Target(scheme, host, path, query, fragment), u);
    ParsedInSite(u);
  }

  /** proxy_with_session.py on an `http` target that parses: what
      `RewriteParsed` makes of the parsed form. */
  lemma SessionOnParsed(loc: string, u: Url)
    requires StartsWith(loc, "http") && Parse(loc) == Success(u)
    ensures SessionProxy.RewriteLocation(loc) == Success(SessionProxy.RewriteParsed(u))
  {
  }

  /** `RewriteParsed` on a parsed target with an authority and no empty
      query: the prefix, path and query exactly when the authority ends
      with `linkedin.com`. */
  lemma ParsedInSite(u: Url)
    requires u.netloc.Some? && u.query != Some("")
    ensures SessionProxy.RewriteParsed(u)
            == if EndsWith(u.netloc.value, SessionProxy.SiteSuffix) then Some(ProxyPrefix + (u.path + Tagged("?", u.query))) else None
  {
    var r := SessionProxy.RewriteParsed(u);
    if r.Some? {
      PathQueryComposed(u.path, u.query);
      assert r.value == r.value[..|ProxyPrefix|] + r.value[|ProxyPrefix|..];
    }
  }

  /** Such a target parses back into its components. */
  lemma TargetParses(scheme: string, host: string, path: string, query: Option<string>, fragment: Option<string>)
    requires scheme == "http" || scheme == "https"
    requires IsPlainHost(host) && IsPlainPathQuery(path, query) && IsPlainFragment(fragment)
    ensures StartsWith(Target(scheme, host, path, query, fragment), "http")
    ensures Parse(Target(scheme, host, path, query, fragment)) == Success(Url(Some(scheme), Some(host), path, None, query, fragment))
  {
    var u := Url(Some(scheme), Some(host), path, None, query, fragment);
    TargetIsPlain(scheme, host, path, query, fragment);
    TargetComposed(scheme, host, path, query, fragment);
    ParseCompose(u);
    PrefixExtends(scheme, "://" + host + (path + Tagged("?", query)) + Tagged("#", fragment), "http");
  }

  lemma TargetIsPlain(scheme: string, host: string, path: string, query: Option<string>, fragment: Option<string>)
    requires scheme == "http" || scheme == "https"
    requires HasPlainHostChars(host) && IsPlainPathQuery(path, query) && IsPlainFragment(fragment)
    ensures HasPlainParts(Url(Some(scheme), Some(host), path, None, query, fragment))
  {
    assert forall j :: 0 <= j < |scheme| ==> IsSchemeChar(scheme[j]);
  }

  lemma TargetComposed(scheme: string, host: string, path: string, query: Option<string>, fragment: Option<string>)
    ensures Compose(Url(Some(scheme), Some(host), path, None, query, fragment)) == Target(scheme, host, path, query, fragment)
  {
  }

  lemma PrefixExtends(a: string, b: string, p: string)
    requires StartsWith(a, p)
    ensures StartsWith(a + b, p)
  {
    assert (a + b)[..|p|] == a[..|p|];
  }

  lemma PathQueryComposed(path: string, query: Option<string>)
    requires query != Some("")
    ensures Compose(Url(None, None, path, None, SessionProxy.NonEmpty(query.GetOr("")), None)) == path + Tagged("?", query)
  {
  }


  /** A target on the origin is the origin text followed by the rest. */
  lemma OriginTarget(scheme: string, host: string, path: string, query: Option<string>, fragment: Option<string>)
    requires scheme == "https" && host == "www.linkedin.com"
    ensures Target(scheme, host, path, query, fragment)
            == AppProxy.TargetUrl + (path + Tagged("?", query) + Tagged("#", fragment))
    ensures fragment.None? ==>
              Target(scheme, host, path, query, fragment) == AppProxy.TargetUrl + (path + Tagged("?", query))
  {
    assert path + Tagged("?", query) + Tagged("#", None) == path + Tagged("?", query);
  }

  /** An `https` target whose host does not start with `w`, or any `http`
      target, does not start with the origin text. */
  lemma NotOriginText(scheme: string, host: string, path: string, query: Option<string>, fragment: Option<string>)
    requires scheme == "http" || (scheme == "https" && |host| > 0 && host[0] != 'w')
    ensures !StartsWith(Target(scheme, host, path, query, fragment), AppProxy.TargetUrl)
  {
    var loc := Target(scheme, host, path, query, fragment);
    if scheme == "http" {
      assert loc[4] == ':' != AppProxy.TargetUrl[4];
    } else {
      assert loc[8] == host[0] != AppProxy.TargetUrl[8];
    }
  }

  /** app.py on an `http` or `https` target it does not recognise as the
      origin: left alone. */
  lemma AppPassesThrough(scheme: string, host: string, path: string, query: Option<string>, fragment: Option<string>)
    requires scheme == "http" || (scheme == "https" && |host| > 0 && host[0] != 'w')
    ensures AppProxy.RewriteLocation(Target(scheme, host, path, query, fragment)) == None
  {
    NotOriginText(scheme, host, path, query, fragment);
    PrefixExtends(scheme, "://" + host + (path + Tagged("?", query)) + Tagged("#", fragment), "http");
  }

  /** A redirect to the bare domain: app.py passes it through to the client,
      proxy_with_session.py keeps it in the proxy. */
  lemma BareDomainTarget(path: string, query: Option<string>, fragment: Option<string>)
    requires IsPlainTail(path, query) && IsPlainFragment(fragment)
    ensures var loc := Target("https", "linkedin.com", path, query, fragment);
            && AppProxy.RewriteLocation(loc) == None
            && SessionProxy.RewriteLocation(loc) == Success(Some(ProxyPrefix + (path + Tagged("?", query))))
  {
    BareHostInSite();
    AppPassesThrough("https", "linkedin.com", path, query, fragment);
    SessionOnTarget("https", "linkedin.com", path, query, fragment);
  }

  /** A redirect to the origin over plain `http`: the same split. */
  lemma PlainHttpTarget(path: string, query: Option<string>, fragment: Option<string>)
    requires IsPlainTail(path, query) && IsPlainFragment(fragment)
    ensures var loc := Target("http", "www.linkedin.com", path, query, fragment);
            && AppProxy.RewriteLocation(loc) == None
            && SessionProxy.RewriteLocation(loc) == Success(Some(ProxyPrefix + (path + Tagged("?", query))))
  {
    OriginHostInSite();
    AppPassesThrough("http", "www.linkedin.com", path, query, fragment);
    SessionOnTarget("http", "www.linkedin.com", path, query, fragment);
  }

  /** A redirect to a foreign host whose name merely ends with
      `linkedin.com`: app.py passes it through, proxy_with_session.py serves
      its path from the origin instead. */
  lemma LookalikeHostTarget(path: string, query: Option<string>, fragment: Option<string>)
    requires IsPlainTail(path, query) && IsPlainFragment(fragment)
    ensures var loc := Target("https", "evillinkedin.com", path, query, fragment);
            && AppProxy.RewriteLocation(loc) == None
            && SessionProxy.RewriteLocation(loc) == Success(Some(ProxyPrefix + (path + Tagged("?", query))))
  {
    LookalikeHostInSite();
    AppPassesThrough("https", "evillinkedin.com", path, query, fragment);
    SessionOnTarget("https", "evillinkedin.com", path, query, fragment);
  }

  /** A redirect to a foreign host whose name starts with the origin's:
      app.py keeps it in the proxy under a mangled path, proxy_with_session.py
      passes it through. */
  lemma OriginPrefixedHostTarget(path: string, query: Option<string>, fragment: Option<string>)
    requires IsPlainTail(path, query) && IsPlainFragment(fragment)
    ensures var loc := Target("https", "www.linkedin.com.evil.com", path, query, fragment);
            && AppProxy.RewriteLocation(loc)
               == Some(ProxyPrefix + (".evil.com" + (path + Tagged("?", query) + Tagged("#", fragment))))
            && SessionProxy.RewriteLocation(loc) == Success(None)
  {
    PrefixedHostOutsideSite();
    PrefixedHostSplits();
    ExtendedHostTarget("www.linkedin.com", ".evil.com", path, query, fragment);
    AppOnOrigin(".evil.com" + (path + Tagged("?", query) + Tagged("#", fragment)));
    SessionOnTarget("https", "www.linkedin.com.evil.com", path, query, fragment);
  }

  /** A redirect on the origin with a fragment: app.py keeps the fragment,
      proxy_with_session.py drops it. */
  lemma FragmentTarget(path: string, query: Option<string>, fragment: string)
    requires IsPlainTail(path, query) && IsPlainFragment(Some(fragment))
    ensures var loc := Target("https", "www.linkedin.com", path, query, Some(fragment));
            && AppProxy.RewriteLocation(loc) == Some(ProxyPrefix + (path + Tagged("?", query) + ("#" + fragment)))
            && SessionProxy.RewriteLocation(loc) == Success(Some(ProxyPrefix + (path + Tagged("?", query))))
  {
    OriginHostInSite();
    OriginTarget("https", "www.linkedin.com", path, query, Some(fragment));
    AppOnOrigin(path + Tagged("?", query) + ("#" + fragment));
    SessionOnTarget("https", "www.linkedin.com", path, query, Some(fragment));
  }

  /** A redirect to a host with text before its `[`: app.py passes it
      through, while `urlparse` rejects it, so proxy_with_session.py answers
      with its error response. */
  lemma BracketedHostTarget(path: string, query: Option<string>, fragment: Option<string>)
    requires IsPlainTail(path, query) && IsPlainFragment(fragment)
    ensures var loc := Target("https", "x[::1]linkedin.com", path, query, fragment);
            && AppProxy.RewriteLocation(loc) == None
            && SessionProxy.RewriteLocation(loc) == Failure(InvalidIpv6)
  {
    MisplacedBracketHost();
    AppPassesThrough("https", "x[::1]linkedin.com", path, query, fragment);
    TargetRejected("https", "x[::1]linkedin.com", path, query, fragment);
  }

  /** proxy_with_session.py on an `http` or `https` target whose authority
      `urlsplit` rejects: the rewrite fails with `Invalid IPv6 URL`. */
  lemma TargetRejected(scheme: string, host: string, path: string, query: Option<string>, fragment: Option<string>)
    requires scheme == "http" || scheme == "https"
    requires HasPlainHostChars(host) && IsInvalidIpv6Netloc(host)
    requires IsPlainPathQuery(path, query) && IsPlainFragment(fragment)
    ensures SessionProxy.RewriteLocation(Target(scheme, host, path, query, fragment)) == Failure(InvalidIpv6)
  {
    var u := Url(Some(scheme), Some(host), path, None, query, fragment);
    TargetIsPlain(scheme, host, path, query, fragment);
    TargetComposed(scheme, host, path, query, fragment);
    ParseComposeRejects(u);
    PrefixExtends(scheme, "://" + host + (path + Tagged("?", query)) + Tagged("#", fragment), "http");
  }

  /** A redirect on the origin with an empty query (`…?`): app.py keeps the
      `?`, proxy_with_session.py drops it. */
  lemma EmptyQueryTarget(path: string, fragment: Option<string>)
    requires IsPlainTail(path, None) && IsPlainFragment(fragment)
    ensures var loc := Target("https", "www.linkedin.com", path, Some(""), fragment);
            && AppProxy.RewriteLocation(loc) == Some(ProxyPrefix + (path + "?" + Tagged("#", fragment)))
            && SessionProxy.RewriteLocation(loc) == Success(Some(ProxyPrefix + path))
  {
    assert Tagged("?", Some("")) == "?";
    OriginTarget("https", "www.linkedin.com", path, Some(""), fragment);
    AppOnOrigin(path + "?" + Tagged("#", fragment));
    SessionOnEmptyQuery(path, fragment);
  }

  lemma SessionOnEmptyQuery(path: string, fragment: Option<string>)
    requires IsPlainTail(path, None) && IsPlainFragment(fragment)
    ensures SessionProxy.RewriteLocation(Target("https", "www.linkedin.com", path, Some(""), fragment))
            == Success(Some(ProxyPrefix + path))
  {
    var u := Url(Some("https"), Some("www.linkedin.com"), path, None, Some(""), fragment);
    OriginHostInSite();
    TargetParses("https", "www.linkedin.com", path, Some(""), fragment);
    var r := SessionProxy.RewriteParsed(u);
    EmptyQueryComposed(path);
    assert r.value == r.value[..|ProxyPrefix|] + r.value[|ProxyPrefix|..];
  }

  lemma EmptyQueryComposed(path: string)
    ensures Compose(Url(None, None, path, None, SessionProxy.NonEmpty(""), None)) == path
  {
  }

  /** A redirect on the origin whose last path segment carries `;params`:
      app.py keeps them, proxy_with_session.py drops them with the rest of
      what `urlparse` splits off the path. */
  lemma ParamsTarget(path: string, params: string, query: Option<string>, fragment: Option<string>)
    requires IsPlainTail(path, query) && |path| > 0 && IsPlainFragment(fragment)
    requires forall j :: 0 <= j < |params| ==> params[j] !in AuthorityEnd && !IsUnsafe(params[j])
    ensures var loc := AppProxy.TargetUrl + (path + (";" + params) + Tagged("?", query) + Tagged("#", fragment));
            && AppProxy.RewriteLocation(loc) == Some(ProxyPrefix + (path + (";" + params) + Tagged("?", query) + Tagged("#", fragment)))
            && SessionProxy.RewriteLocation(loc) == Success(Some(ProxyPrefix + (path + Tagged("?", query))))
  {
    var tail := path + (";" + params) + Tagged("?", query) + Tagged("#", fragment);
    AppOnOrigin(tail);
    OriginHostInSite();
    HttpsTakesParams();
    SessionOnParams("https", "www.linkedin.com", path, params, query, fragment);
    OriginText(tail);
  }

  /** The origin text followed by a tail, grouped as a target. */
  lemma OriginText(tail: string)
    ensures AppProxy.TargetUrl + tail == "https" + ("://" + "www.linkedin.com" + "" + tail)
  {
    PrefixedHostSplits();
    Regroup("https", "://", "www.linkedin.com", "", tail);
  }

  /** proxy_with_session.py on a target with `;params` on a host ending
      with `linkedin.com`: the prefix, the path and the query. */
  lemma SessionOnParams(scheme: string, host: string, path: string, params: string, query: Option<string>, fragment: Option<string>)
    requires |scheme| > 0 && IsAsciiLetter(scheme[0]) && (forall j :: 0 <= j < |scheme| ==> IsSchemeChar(scheme[j]))
    requires Lower(scheme) in UsesParams && StartsWith(scheme, "http")
    requires IsPlainHost(host) && EndsWith(host, SessionProxy.SiteSuffix)
    requires IsPlainTail(path, query) && |path| > 0 && IsPlainFragment(fragment)
    requires forall j :: 0 <= j < |params| ==> params[j] !in AuthorityEnd && !IsUnsafe(params[j])
    ensures SessionProxy.RewriteLocation(scheme + ("://" + host + "" + (path + (";" + params) + Tagged("?", query) + Tagged("#", fragment))))
            == Success(Some(ProxyPrefix + (path + Tagged("?", query))))
  {
    var u := Url(Some(scheme), Some(host), path, Some(params), query, fragment);
    ParamsTargetParses(scheme, host, path, params, query, fragment);
    SessionOnParsed(scheme + ("://" + host + "" + (path + (";" + params) + Tagged("?", query) + Tagged("#", fragment))), u);
    ParsedInSite(u);
  }

  /** Such a target parses back into its components, parameters included. */
  lemma ParamsTargetParses(scheme: string, host: string, path: string, params: string, query: Option<string>, fragment: Option<string>)
    requires |scheme| > 0 && IsAsciiLetter(scheme[0]) && (forall j :: 0 <= j < |scheme| ==> IsSchemeChar(scheme[j]))
    requires Lower(scheme) in UsesParams && StartsWith(scheme, "http")
    requires IsPlainHost(host)
    requires IsPlainTail(path, query) && |path| > 0 && IsPlainFragment(fragment)
    requires forall j :: 0 <= j < |params| ==> params[j] !in AuthorityEnd && !IsUnsafe(params[j])
    ensures var loc := scheme + ("://" + host + "" + (path + (";" + params) + Tagged("?", query) + Tagged("#", fragment)));
            && StartsWith(loc, "http")
            && Parse(loc) == Success(Url(Some(scheme), Some(host), path, Some(params), query, fragment))
  {
    var tail := path + (";" + params) + Tagged("?", query) + Tagged("#", fragment);
    var u := Url(Some(scheme), Some(host), path, Some(params), query, fragment);
    assert IsPlainAbsolute(u);
    ParamsComposed(scheme, host, path, params, query, fragment);
    ParseCompose(u);
    PrefixExtends(scheme, "://" + host + "" + tail, "http");
  }

  lemma ParamsComposed(scheme: string, host: string, path: string, params: string, query: Option<string>, fragment: Option<string>)
    ensures Compose(Url(Some(scheme), Some(host), path, Some(params), query, fragment))
            == scheme + ("://" + host + "" + (path + (";" + params) + Tagged("?", query) + Tagged("#", fragment)))
  {
  }

  /** `https` as `SplitScheme` and `SplitParams` see it. */
  lemma HttpsTakesParams()
    ensures IsAsciiLetter("https"[0]) && forall j :: 0 <= j < |"https"| ==> IsSchemeChar("https"[j])
    ensures Lower("https") in UsesParams && StartsWith("https", "http")
  {
    assert Lower("https") == "https";
  }

  /** The hosts above, as `Parse` and the suffix test see them. */
  lemma OriginHostInSite()
    ensures IsPlainHost("www.linkedin.com") && EndsWith("www.linkedin.com", SessionProxy.SiteSuffix)
  {
    assert "www.linkedin.com"[4..] == "linkedin.com";
  }

  lemma BareHostInSite()
    ensures IsPlainHost("linkedin.com") && EndsWith("linkedin.com", SessionProxy.SiteSuffix)
  {
  }

  lemma LookalikeHostInSite()
    ensures IsPlainHost("evillinkedin.com") && EndsWith("evillinkedin.com", SessionProxy.SiteSuffix)
  {
    assert "evillinkedin.com"[4..] == "linkedin.com";
  }

  lemma PrefixedHostOutsideSite()
    ensures IsPlainHost("www.linkedin.com.evil.com") && !EndsWith("www.linkedin.com.evil.com", SessionProxy.SiteSuffix)
  {
    assert "www.linkedin.com.evil.com"[13..][0] != "linkedin.com"[0];
  }

  /** A target on a host whose name extends the origin's is the origin text
      followed by the extension and the rest. */
  lemma ExtendedHostTarget(host: string, extension: string, path: string, query: Option<string>, fragment: Option<string>)
    requires host == "www.linkedin.com"
    ensures Target("https", host + extension, path, query, fragment)
            == AppProxy.TargetUrl + (extension + (path + Tagged("?", query) + Tagged("#", fragment)))
  {
    PrefixedHostSplits();
    Regroup("https", "://", host, extension, path + Tagged("?", query) + Tagged("#", fragment));
  }

  lemma MisplacedBracketHost()
    ensures HasPlainHostChars("x[::1]linkedin.com") && IsInvalidIpv6Netloc("x[::1]linkedin.com")
    ensures "x[::1]linkedin.com"[0] != 'w'
  {
    BracketHostChars();
    BracketHostSplits();
    TextBeforeBracket("x", "::1]linkedin.com");
  }

  lemma BracketHostChars()
    ensures HasPlainHostChars("x[::1]linkedin.com")
    ensures '@' !in "x[::1]linkedin.com"
  {
  }

  lemma BracketHostSplits()
    ensures "x[::1]linkedin.com" == "x" + "[" + "::1]linkedin.com"
    ensures '[' !in "x" && ']' in "::1]linkedin.com"
  {
    assert "::1]linkedin.com"[3] == ']';
  }

  /** An authority with text before its first `[`, and a `]` after it, is
      one `urlsplit` rejects. */
  lemma TextBeforeBracket(before: string, after: string)
    requires |before| > 0 && '[' !in before && ']' in after
    requires '@' !in before + "[" + after
    ensures IsInvalidIpv6Netloc(before + "[" + after)
  {
    var netloc := before + "[" + after;
    assert netloc == before + ("[" + after);
    IndexOfAnyConcat(before, "[" + after, {'['}, 0);
    assert IndexOfAny("[" + after, {'['}, 0) == Some(0);
    var k :| 0 <= k < |after| && after[k] == ']';
    assert netloc[|before| + 1 + k] == ']';
  }

  lemma PrefixedHostSplits()
    ensures "www.linkedin.com.evil.com" == "www.linkedin.com" + ".evil.com"
    ensures AppProxy.TargetUrl == "https" + "://" + "www.linkedin.com"
  {
  }

  lemma Regroup(a: string, b: string, h: string, e: string, r: string)
    ensures a + (b + (h + e) + r) == a + b + h + (e + r)
  {
  }
}
