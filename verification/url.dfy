/** The URL splitter the session-aware proxy calls as `urlparse` (Python 3.12's
    `urllib.parse`), following the generic syntax of section 3 of RFC 3986:
    scheme, `//` authority up to the first `/`, `?` or `#`, path, `;params`
    of the last path segment, query and fragment.

    Unlike `urlparse`'s result, each optional component records whether its
    delimiter was present, so that `Compose` is an exact inverse of `Parse`;
    the accessors (`Netloc`, `Query`, ...) give back `urlparse`'s empty-string
    view. */
module Url {
  import opened Wrappers
  import opened Strings

  datatype Url = Url(
    scheme: Option<string>,    // as written, before lower-casing
    netloc: Option<string>,    // present when the reference starts with `//`
    path: string,
    params: Option<string>,
    query: Option<string>,
    fragment: Option<string>)
  {
    /** `urlparse(...).scheme`: lower-cased, empty when absent. */
    function Scheme(): string { Lower(scheme.GetOr("")) }

    /** `urlparse(...).netloc` */
    function Netloc(): string { netloc.GetOr("") }

    /** `urlparse(...).query` */
    function Query(): string { query.GetOr("") }
  }

  /** The message of the `ValueError` `urlsplit` raises on an authority with
      an unmatched or misplaced square bracket. */
  const InvalidIpv6 := "Invalid IPv6 URL"

  /** Schemes whose last path segment may carry `;params` (`uses_params`). */
  const UsesParams: set<string> :=
    {"", "ftp", "hdl", "prospero", "http", "imap", "https", "shttp", "rtsp",
     "rtsps", "rtspu", "sip", "sips", "mms", "sftp", "tel"}

  /** The delimiters that end an authority. */
  const AuthorityEnd: set<char> := {'/', '?', '#'}

  predicate IsAsciiLetter(c: char) {
    'a' <= c <= 'z' || 'A' <= c <= 'Z'
  }

  /** `scheme_chars`: letters, digits, `+`, `-` and `.`. */
  predicate IsSchemeChar(c: char) {
    IsAsciiLetter(c) || '0' <= c <= '9' || c == '+' || c == '-' || c == '.'
  }

  /** Tab, carriage return and line feed, which `urlsplit` deletes anywhere. */
  predicate IsUnsafe(c: char) {
    c == '\t' || c == '\r' || c == '\n'
  }

  /** Text `urlsplit` leaves as it is: no leading C0 control or space and no
      tab, carriage return or line feed. */
  predicate IsClean(s: string) {
    && (|s| == 0 || s[0] > ' ')
    && forall i :: 0 <= i < |s| ==> !IsUnsafe(s[i])
  }

  /** `s.lstrip(_WHATWG_C0_CONTROL_OR_SPACE)` */
  function StripLeading(s: string): (r: string)
    ensures |r| == 0 || r[0] > ' '
    ensures |r| <= |s| && r == s[|s| - |r|..]
  {
    if |s| > 0 && s[0] <= ' ' then StripLeading(s[1..]) else s
  }

  /** `s` with every tab, carriage return and line feed deleted. */
  function RemoveUnsafe(s: string): (r: string)
    ensures forall i :: 0 <= i < |r| ==> !IsUnsafe(r[i])
    ensures (forall i :: 0 <= i < |s| ==> !IsUnsafe(s[i])) ==> r == s
    ensures |s| > 0 && !IsUnsafe(s[0]) ==> |r| > 0 && r[0] == s[0]
  {
    if s == [] then []
    else if IsUnsafe(s[0]) then RemoveUnsafe(s[1..])
    else [s[0]] + RemoveUnsafe(s[1..])
  }

  /** The clean-up `urlsplit` performs before it splits anything. */
  function Clean(s: string): (r: string)
    ensures IsClean(r)
    ensures IsClean(s) ==> r == s
  {
    RemoveUnsafe(StripLeading(s))
  }

  /** `sep + v` for a present component, nothing for an absent one. */
  function Tagged(sep: string, o: Option<string>): string {
    match o
    case Some(v) => sep + v
    case None => ""
  }

  /** Splits off a leading `scheme:` when everything before the first colon
      is a scheme name starting with a letter. */
  function SplitScheme(s: string): (r: (Option<string>, string))
    ensures (match r.0 case Some(v) => v + ":" case None => "") + r.1 == s
    ensures r.0.Some? ==> |r.0.value| > 0 && IsAsciiLetter(r.0.value[0])
    ensures r.0.Some? ==> forall j :: 0 <= j < |r.0.value| ==> IsSchemeChar(r.0.value[j])
  {
    match IndexOf(s, ':', 0)
    case None => (None, s)
    case Some(i) =>
      if i > 0 && IsAsciiLetter(s[0]) && forall j :: 0 <= j < i ==> IsSchemeChar(s[j]) then
        assert s == s[..i] + ":" + s[i + 1..];
        (Some(s[..i]), s[i + 1..])
      else
        (None, s)
  }

  /** `_splitnetloc(s, 2)` when `s` starts with `//`: the authority runs up
      to the first `/`, `?` or `#`. */
  function SplitNetloc(s: string): (r: (Option<string>, string))
    ensures Tagged("//", r.0) + r.1 == s
    ensures r.0.Some? ==> forall j :: 0 <= j < |r.0.value| ==> r.0.value[j] !in AuthorityEnd
    ensures r.0.Some? && |r.1| > 0 ==> r.1[0] in AuthorityEnd
  {
    if |s| >= 2 && s[..2] == "//" then
      var end := match IndexOfAny(s, AuthorityEnd, 2) case Some(d) => d case None => |s|;
      assert s == s[..2] + s[2..end] + s[end..];
      (Some(s[2..end]), s[end..])
    else
      (None, s)
  }

  /** `s.split(c, 1)` when `c in s`: the text before the first `c`, and the
      text after it. */
  function SplitAt(s: string, c: char): (r: (string, Option<string>))
    ensures r.0 + Tagged([c], r.1) == s
    ensures forall j :: 0 <= j < |r.0| ==> r.0[j] != c
  {
    match IndexOf(s, c, 0)
    case None => (s, None)
    case Some(i) =>
      assert s == s[..i] + [c] + s[i + 1..];
      (s[..i], Some(s[i + 1..]))
  }

  /** `_splitparams`, applied when the lower-cased scheme is one of
      `UsesParams` and the path holds a `;`: parameters start at the first `;` of the last
      path segment. */
  function SplitParams(path: string, usesParams: bool): (r: (string, Option<string>))
    ensures r.0 + Tagged(";", r.1) == path
    ensures ';' !in path ==> r == (path, None)
  {
    if usesParams && ';' in path then
      var start := match LastIndexOf(path, '/', |path|) case Some(j) => j case None => 0;
      match IndexOf(path, ';', start)
      case None => (path, None)
      case Some(i) =>
        assert path == path[..i] + ";" + path[i + 1..];
        (path[..i], Some(path[i + 1..]))
    else
      (path, None)
  }

  /** `netloc.rpartition('@')[2]`: the host and port, after the last `@`. */
  function HostAndPort(netloc: string): (r: string)
    ensures |r| <= |netloc| && r == netloc[|netloc| - |r|..]
    ensures '@' !in r
    ensures '@' !in netloc ==> r == netloc
  {
    match LastIndexOf(netloc, '@', |netloc|)
    case None => netloc
    case Some(i) =>
      netloc[i + 1..]
  }

  /** The text checks of `_check_bracketed_netloc`, run when the authority
      holds both brackets: in the host and port, nothing may come before the
      first `[`, and what follows the first `]` after it must be empty or
      start with the `:` of a port. */
  predicate IsMisplacedBracket(netloc: string) {
    var hostPort := HostAndPort(netloc);
    match IndexOf(hostPort, '[', 0)
    case None => false
    case Some(i) =>
      || i > 0
      || match IndexOf(hostPort, ']', i + 1)
         case None => false
         case Some(k) => k + 1 < |hostPort| && hostPort[k + 1] != ':'
  }

  /** The authorities `urlsplit` rejects with `Invalid IPv6 URL`: one square
      bracket without the other, or both with a bracket misplaced. */
  predicate IsInvalidIpv6Netloc(netloc: string) {
    || ('[' in netloc) != (']' in netloc)
    || ('[' in netloc && ']' in netloc && IsMisplacedBracket(netloc))
  }

  /** `urlparse(s)`, with the authority checks that raise `Invalid IPv6 URL`;
      the address check of a bracketed host and the NFKC check of a
      non-ASCII authority are not modelled. */
  function Parse(s: string): (r: Result<Url>)
    ensures r.Failure? ==> r.error == InvalidIpv6
    ensures r.Success? && r.value.netloc.Some? ==>
              forall j :: 0 <= j < |r.value.netloc.value| ==> r.value.netloc.value[j] !in AuthorityEnd
    ensures r.Success? ==> forall j :: 0 <= j < |r.value.path| ==> r.value.path[j] != '?' && r.value.path[j] != '#'
  {
    var t := Clean(s);
    var (scheme, afterScheme) := SplitScheme(t);
    var (netloc, afterNetloc) := SplitNetloc(afterScheme);
    if netloc.Some? && IsInvalidIpv6Netloc(netloc.value) then
      Failure(InvalidIpv6)
    else
      Success(SplitPath(scheme, netloc, afterNetloc))
  }

  /** The steps of `urlparse` after the authority: the fragment at the first
      `#`, the query at the first `?` before it, and the parameters of the
      last path segment. */
  function SplitPath(scheme: Option<string>, netloc: Option<string>, afterNetloc: string): (r: Url)
    ensures r.scheme == scheme && r.netloc == netloc
    ensures forall j :: 0 <= j < |r.path| ==> r.path[j] != '?' && r.path[j] != '#'
  {
    var (beforeFragment, fragment) := SplitAt(afterNetloc, '#');
    var (beforeQuery, query) := SplitAt(beforeFragment, '?');
    var (path, params) := SplitParams(beforeQuery, Lower(scheme.GetOr("")) in UsesParams);
    assert path + Tagged(";", params) == beforeQuery;
    assert forall j :: 0 <= j < |path| ==> path[j] == beforeQuery[j];
    assert forall j :: 0 <= j < |beforeQuery| ==> beforeQuery[j] == beforeFragment[j];
    Url(scheme, netloc, path, params, query, fragment)
  }

  /** `urlunparse` without loss: every component with its delimiter. */
  function Compose(u: Url): string {
    (match u.scheme case Some(v) => v + ":" case None => "")
    + Tagged("//", u.netloc) + u.path + Tagged(";", u.params)
    + Tagged("?", u.query) + Tagged("#", u.fragment)
  }

  /** Composing the parts `Parse` finds gives back the text it was given,
      once that text is clean: splitting loses nothing. */
  lemma ComposeParse(s: string)
    requires IsClean(s)
    requires Parse(s).Success?
    ensures Compose(Parse(s).value) == s
  {
    var (scheme, afterScheme) := SplitScheme(s);
    var (netloc, afterNetloc) := SplitNetloc(afterScheme);
    var (beforeFragment, fragment) := SplitAt(afterNetloc, '#');
    var (beforeQuery, query) := SplitAt(beforeFragment, '?');
    var (path, params) := SplitParams(beforeQuery, Lower(scheme.GetOr("")) in UsesParams);
    var u := Url(scheme, netloc, path, params, query, fragment);
    assert Parse(s) == Success(u);
    var schemePart := match scheme case Some(v) => v + ":" case None => "";
    ConcatRegroup(schemePart, Tagged("//", netloc), path, Tagged(";", params),
                  Tagged("?", query), Tagged("#", fragment));
  }

  /** Regrouping the six components of `Compose` the way `Parse` peels them. */
  lemma ConcatRegroup(a: string, b: string, c: string, d: string, e: string, f: string)
    ensures a + b + c + d + e + f == a + (b + (((c + d) + e) + f))
  {
  }

  /** An absolute URL whose every component `Parse` splits off as it is: a
      scheme name, an authority without `/`, `?` or `#`, a path that is
      empty or starts with `/` and holds none of `;`, `?`, `#`, parameters
      only after a non-empty path under a scheme that takes them and
      without `/`, `?` or `#`, a
      query without `#`, and no tab, carriage return or line feed anywhere. */
  predicate HasPlainParts(u: Url) {
    && u.scheme.Some? && |u.scheme.value| > 0 && IsAsciiLetter(u.scheme.value[0])
    && (forall j :: 0 <= j < |u.scheme.value| ==> IsSchemeChar(u.scheme.value[j]))
    && u.netloc.Some?
    && (forall j :: 0 <= j < |u.netloc.value| ==> u.netloc.value[j] !in AuthorityEnd && !IsUnsafe(u.netloc.value[j]))
    && (|u.path| == 0 || u.path[0] == '/')
    && (forall j :: 0 <= j < |u.path| ==> u.path[j] !in {';', '?', '#'} && !IsUnsafe(u.path[j]))
    && (u.params.Some? ==>
          && |u.path| > 0
          && Lower(u.scheme.value) in UsesParams
          && forall j :: 0 <= j < |u.params.value| ==> u.params.value[j] !in AuthorityEnd && !IsUnsafe(u.params.value[j]))
    && (u.query.Some? ==> forall j :: 0 <= j < |u.query.value| ==> u.query.value[j] != '#' && !IsUnsafe(u.query.value[j]))
    && (u.fragment.Some? ==> forall j :: 0 <= j < |u.fragment.value| ==> !IsUnsafe(u.fragment.value[j]))
  }

  /** What follows the authority of a composed URL. */
  function AfterNetloc(u: Url): string {
    u.path + Tagged(";", u.params) + Tagged("?", u.query) + Tagged("#", u.fragment)
  }

  /** Plain parts around an authority `urlsplit` accepts. */
  predicate IsPlainAbsolute(u: Url) {
    HasPlainParts(u) && !IsInvalidIpv6Netloc(u.netloc.value)
  }

  /** No tab, carriage return or line feed anywhere in `s`. */
  predicate NoUnsafe(s: string) {
    forall i :: 0 <= i < |s| ==> !IsUnsafe(s[i])
  }

  lemma NoUnsafeConcat(a: string, b: string)
    requires NoUnsafe(a) && NoUnsafe(b)
    ensures NoUnsafe(a + b)
  {
    forall i | 0 <= i < |a + b| ensures !IsUnsafe((a + b)[i]) {
      if i >= |a| { assert (a + b)[i] == b[i - |a|]; }
    }
  }

  lemma SplitSchemeComposed(scheme: string, rest: string)
    requires |scheme| > 0 && IsAsciiLetter(scheme[0])
    requires forall j :: 0 <= j < |scheme| ==> IsSchemeChar(scheme[j])
    ensures SplitScheme(scheme + ":" + rest) == (Some(scheme), rest)
  {
    var s := scheme + ":" + rest;
    assert s == scheme + (":" + rest);
    forall j | 0 <= j < |scheme| ensures scheme[j] != ':' { assert IsSchemeChar(scheme[j]); }
    IndexOfAnyConcat(scheme, ":" + rest, {':'}, 0);
    assert IndexOfAny(":" + rest, {':'}, 0) == Some(0);
    assert s[..|scheme|] == scheme;
    assert s[|scheme| + 1..] == rest;
  }

  lemma SplitNetlocComposed(netloc: string, tail: string)
    requires forall j :: 0 <= j < |netloc| ==> netloc[j] !in AuthorityEnd
    requires |tail| > 0 ==> tail[0] in AuthorityEnd
    ensures SplitNetloc("//" + netloc + tail) == (Some(netloc), tail)
  {
    var s := "//" + netloc + tail;
    assert s[..2] == "//";
    IndexOfAnyConcat("//" + netloc, tail, AuthorityEnd, 2);
    if |tail| > 0 {
      assert IndexOfAny(tail, AuthorityEnd, 0) == Some(0);
    }
    assert s[2..2 + |netloc|] == netloc;
    assert s[2 + |netloc|..] == tail;
  }

  lemma SplitAtComposed(a: string, o: Option<string>, c: char)
    requires forall j :: 0 <= j < |a| ==> a[j] != c
    ensures SplitAt(a + Tagged([c], o), c) == (a, o)
  {
    var s := a + Tagged([c], o);
    IndexOfAnyConcat(a, Tagged([c], o), {c}, 0);
    if o.Some? {
      assert IndexOfAny(Tagged([c], o), {c}, 0) == Some(0);
      assert s[|a| + 1..] == o.value;
    }
    assert s[..|a|] == a;
  }

  lemma SplitParamsComposed(path: string, params: Option<string>, usesParams: bool)
    requires forall j :: 0 <= j < |path| ==> path[j] != ';'
    requires params.Some? ==> usesParams && forall j :: 0 <= j < |params.value| ==> params.value[j] != '/'
    ensures SplitParams(path + Tagged(";", params), usesParams) == (path, params)
  {
    if params.Some? {
      assert Tagged(";", params) == ";" + params.value;
      SplitParamsPresent(path, params.value);
    } else {
      assert path + Tagged(";", params) == path;
    }
  }

  lemma SplitParamsPresent(path: string, params: string)
    requires forall j :: 0 <= j < |path| ==> path[j] != ';'
    requires forall j :: 0 <= j < |params| ==> params[j] != '/'
    ensures SplitParams(path + (";" + params), true) == (path, Some(params))
  {
    var rest := ";" + params;
    var s := path + rest;
    LastSlashInPath(path, rest);
    var start := match LastIndexOf(s, '/', |s|) case Some(j) => j case None => 0;
    FirstSemicolonAfterPath(path, rest, start);
    SplitParamsFound(path, params);
  }

  /** `_splitparams` once the `;` that starts the parameters is found. */
  lemma SplitParamsFound(path: string, params: string)
    requires IndexOf(path + (";" + params), ';', match LastIndexOf(path + (";" + params), '/', |path + (";" + params)|) case Some(j) => j case None => 0) == Some(|path|)
    ensures SplitParams(path + (";" + params), true) == (path, Some(params))
  {
    var s := path + (";" + params);
    assert s[..|path|] == path;
    assert s[|path| + 1..] == params;
  }

  /** A `/` found searching back through `path + rest` lies in `path` when
      `rest` holds none. */
  lemma LastSlashInPath(path: string, rest: string)
    requires forall j :: 0 <= j < |rest| ==> rest[j] != '/'
    ensures match LastIndexOf(path + rest, '/', |path + rest|) case Some(j) => j < |path| case None => true
  {
  }

  /** The first `;` of `path + rest` at or after a point in `path` is the one
      `rest` starts with, when `path` holds none. */
  lemma FirstSemicolonAfterPath(path: string, rest: string, start: nat)
    requires forall j :: 0 <= j < |path| ==> path[j] != ';'
    requires start <= |path| && |rest| > 0 && rest[0] == ';'
    ensures IndexOf(path + rest, ';', start) == Some(|path|)
  {
    IndexOfAnyConcat(path, rest, {';'}, start);
    assert IndexOfAny(rest, {';'}, 0) == Some(0);
  }

  /** Parsing a composed plain absolute URL gives back its components. */
  lemma ParseCompose(u: Url)
    requires IsPlainAbsolute(u)
    ensures Parse(Compose(u)) == Success(u)
  {
    var beforeQuery := u.path + Tagged(";", u.params);
    var beforeFragment := beforeQuery + Tagged("?", u.query);
    ComposeSplitsNetloc(u);
    PartsHaveNoDelimiters(u);
    SplitAtComposed(beforeFragment, u.fragment, '#');
    SplitAtComposed(beforeQuery, u.query, '?');
    SplitParamsComposed(u.path, u.params, Lower(u.scheme.value) in UsesParams);
  }

  /** Parsing a composed URL with plain parts fails with `Invalid IPv6 URL`
      when its authority is one `urlsplit` rejects; with `ParseCompose`, a
      URL with plain parts parses exactly when its authority passes. */
  lemma ParseComposeRejects(u: Url)
    requires HasPlainParts(u)
    requires IsInvalidIpv6Netloc(u.netloc.value)
    ensures Parse(Compose(u)) == Failure(InvalidIpv6)
  {
    ComposeSplitsNetloc(u);
  }

  /** The first two steps of `Parse` on a composed URL with plain parts:
      nothing is cleaned away, and scheme and authority split off as they
      were. */
  lemma ComposeSplitsNetloc(u: Url)
    requires HasPlainParts(u)
    ensures Clean(Compose(u)) == Compose(u)
    ensures SplitScheme(Compose(u)) == (u.scheme, "//" + u.netloc.value + AfterNetloc(u))
    ensures SplitNetloc("//" + u.netloc.value + AfterNetloc(u)) == (u.netloc, AfterNetloc(u))
  {
    var tail := AfterNetloc(u);
    ComposeIsClean(u);
    SplitSchemeComposed(u.scheme.value, "//" + u.netloc.value + tail);
    assert |tail| > 0 ==> tail[0] in AuthorityEnd;
    SplitNetlocComposed(u.netloc.value, tail);
  }

  /** A composed URL with plain parts is text `urlsplit` leaves as it is. */
  lemma ComposeIsClean(u: Url)
    requires HasPlainParts(u)
    ensures IsClean(Compose(u))
    ensures Compose(u) == u.scheme.value + ":" + ("//" + u.netloc.value + AfterNetloc(u))
  {
    var scheme, netloc := u.scheme.value, u.netloc.value;
    var params, query, fragment := Tagged(";", u.params), Tagged("?", u.query), Tagged("#", u.fragment);
    ConcatRegroup(scheme + ":", "//" + netloc, u.path, params, query, fragment);
    assert NoUnsafe(scheme + ":") by {
      forall i | 0 <= i < |scheme + ":"| ensures !IsUnsafe((scheme + ":")[i]) {
        if i < |scheme| { assert IsSchemeChar(scheme[i]); }
      }
    }
    NoUnsafeConcat("//", netloc);
    assert NoUnsafe(params);
    assert NoUnsafe(query);
    assert NoUnsafe(fragment);
    NoUnsafeConcat(u.path, params);
    NoUnsafeConcat(u.path + params, query);
    NoUnsafeConcat(u.path + params + query, fragment);
    NoUnsafeConcat("//" + netloc, AfterNetloc(u));
    NoUnsafeConcat(scheme + ":", "//" + netloc + AfterNetloc(u));
  }

  /** Before the query of a URL with plain parts there is no `?`, and before
      its fragment no `#`. */
  lemma PartsHaveNoDelimiters(u: Url)
    requires HasPlainParts(u)
    ensures var beforeQuery := u.path + Tagged(";", u.params);
            forall j :: 0 <= j < |beforeQuery| ==> beforeQuery[j] != '?' && beforeQuery[j] != '#'
    ensures var beforeFragment := u.path + Tagged(";", u.params) + Tagged("?", u.query);
            forall j :: 0 <= j < |beforeFragment| ==> beforeFragment[j] != '#'
  {
    var beforeQuery := u.path + Tagged(";", u.params);
    var beforeFragment := beforeQuery + Tagged("?", u.query);
    forall j | 0 <= j < |beforeQuery| ensures beforeQuery[j] != '?' && beforeQuery[j] != '#' {
      if j > |u.path| { assert beforeQuery[j] == u.params.value[j - |u.path| - 1]; }
    }
    forall j | 0 <= j < |beforeFragment| ensures beforeFragment[j] != '#' {
      if j >= |beforeQuery| { assert beforeFragment[j] == Tagged("?", u.query)[j - |beforeQuery|]; }
    }
  }
}
