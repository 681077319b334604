/** The session-aware variant's in-memory session store (`SESSION_STORE` in
    proxy_with_session.py): session ids mapped to a reusable outbound client
    and the time it was last used, with get-or-create and idle eviction.

    The process-wide dictionary becomes a value passed in and returned; the
    clock (`time.time()`), the random id bytes (`os.urandom(16)`) and the
    random user-agent choice (`random.choice`) become parameters. */
module Sessions {
  import opened Wrappers
  import opened Strings
  import opened Http

  /** Seconds of idleness after which a session is evicted (30 minutes). */
  const IdleLimit := 1800

  /** `USER_AGENTS`: the pool a new session's user agent is drawn from. */
  const UserAgents: seq<string> := [
    "Mozilla/5.0 (Macintosh; Intel Mac OS X 10_15_7) AppleWebKit/537.36 (KHTML, like Gecko) Chrome/120.0.0.0 Safari/537.36",
    "Mozilla/5.0 (Windows NT 10.0; Win64; x64) AppleWebKit/537.36 (KHTML, like Gecko) Chrome/120.0.0.0 Safari/537.36",
    "Mozilla/5.0 (X11; Linux x86_64) AppleWebKit/537.36 (KHTML, like Gecko) Chrome/120.0.0.0 Safari/537.36",
    "Mozilla/5.0 (Macintosh; Intel Mac OS X 10_15_7) AppleWebKit/605.1.15 (KHTML, like Gecko) Version/17.2 Safari/605.1.15",
    "Mozilla/5.0 (Windows NT 10.0; Win64; x64) AppleWebKit/537.36 (KHTML, like Gecko) Chrome/120.0.0.0 Safari/537.36 Edg/120.0.0.0"
  ]

  /** The outbound client context of one session (a `requests.Session`): its
      header overlay and its cookie jar. */
  datatype Client = Client(headers: HeaderMap, jar: map<string, string>)

  datatype Record = Record(client: Client, lastUsed: int)

  type Store = map<string, Record>

  /** The header overlay every new session gets apart from its user agent. */
  function FixedOverlay(): HeaderMap {
    var h := map[];
    var h := Set(h, "Accept", "text/html,application/xhtml+xml,application/xml;q=0.9,image/avif,image/webp,image/apng,*/*;q=0.8");
    var h := Set(h, "Accept-Language", "en-US,en;q=0.9");
    var h := Set(h, "Accept-Encoding", "gzip, deflate, br");
    var h := Set(h, "Connection", "keep-alive");
    var h := Set(h, "Upgrade-Insecure-Requests", "1");
    var h := Set(h, "Sec-Fetch-Dest", "document");
    var h := Set(h, "Sec-Fetch-Mode", "navigate");
    var h := Set(h, "Sec-Fetch-Site", "none");
    var h := Set(h, "Sec-Fetch-User", "?1");
    var h := Set(h, "Sec-Ch-Ua", "\"Not A(Brand\";v=\"99\", \"Google Chrome\";v=\"121\", \"Chromium\";v=\"121\"");
    var h := Set(h, "Sec-Ch-Ua-Mobile", "?0");
    Set(h, "Sec-Ch-Ua-Platform", "\"macOS\"")
  }

  /** A fresh `requests.Session` with the overlay applied: the user agent is
      pool entry `choice`, the jar is empty. */
  function NewClient(choice: nat): (c: Client)
    requires choice < |UserAgents|
    ensures Get(c.headers, "User-Agent") == Some(UserAgents[choice])
    ensures c.jar == map[]
  {
    Client(Set(FixedOverlay(), "User-Agent", UserAgents[choice]), map[])
  }

  /** Two new sessions differ at most in their user agent. */
  lemma NewClientsDifferOnlyInUserAgent(i: nat, j: nat, name: string)
    requires i < |UserAgents| && j < |UserAgents|
    requires Lower(name) != Lower("User-Agent")
    ensures Get(NewClient(i).headers, name) == Get(NewClient(j).headers, name)
    ensures NewClient(i).headers.Keys == NewClient(j).headers.Keys
  {
  }

  // ----- session ids: `os.urandom(16).hex()` -----

  function HexDigit(d: nat): (c: char)
    requires d < 16
  {
    if d < 10 then ('0' as int + d) as char else ('a' as int + d - 10) as char
  }

  predicate IsHexDigit(c: char) {
    '0' <= c <= '9' || 'a' <= c <= 'f'
  }

  function DigitValue(c: char): (d: nat)
    requires IsHexDigit(c)
    ensures d < 16 && HexDigit(d) == c
  {
    if c <= '9' then c as int - '0' as int else c as int - 'a' as int + 10
  }

  /** `bytes.hex()`: two lower-case hex digits per byte, high nibble first. */
  function Hex(bs: seq<byte>): (s: string)
    ensures |s| == 2 * |bs|
    ensures forall i :: 0 <= i < |s| ==> IsHexDigit(s[i])
  {
    if bs == [] then ""
    else [HexDigit(bs[0] / 16), HexDigit(bs[0] % 16)] + Hex(bs[1..])
  }

  /** `bytes.fromhex(s)` for text `Hex` can produce. */
  function Unhex(s: string): (bs: seq<byte>)
    requires |s| % 2 == 0
    requires forall i :: 0 <= i < |s| ==> IsHexDigit(s[i])
    ensures 2 * |bs| == |s|
  {
    if s == "" then []
    else [(DigitValue(s[0]) * 16 + DigitValue(s[1])) as byte] + Unhex(s[2..])
  }

  /** Hex encoding loses nothing: distinct random bytes give distinct ids. */
  lemma {:induction false} UnhexHex(bs: seq<byte>)
    ensures Unhex(Hex(bs)) == bs
  {
    if bs != [] {
      var s := Hex(bs);
      var b := bs[0];
      assert s[0] == HexDigit(b / 16) && s[1] == HexDigit(b % 16);
      assert DigitValue(s[0]) == b / 16 by { DigitValueHexDigit(b / 16); }
      assert DigitValue(s[1]) == b % 16 by { DigitValueHexDigit(b % 16); }
      assert s[2..] == Hex(bs[1..]);
      UnhexHex(bs[1..]);
    }
  }

  lemma DigitValueHexDigit(d: nat)
    requires d < 16
    ensures DigitValue(HexDigit(d)) == d
  {
  }

  /** The shape of every id the store hands out. */
  predicate IsSessionId(id: string) {
    |id| == 32 && forall i :: 0 <= i < |id| ==> IsHexDigit(id[i])
  }

  /** Every key of the store is an id the store could have handed out. */
  predicate ValidStore(store: Store) {
    forall id :: id in store ==> IsSessionId(id)
  }

  /** What `get_session_object` produces: the updated store, the session id
      now held in the client's signed session cookie, the client context it
      returns, and whether a new session was made (and so the cookie must be
      written). */
  datatype Resolution = Resolution(store: Store, sessionId: string, client: Client, created: bool)

  /** `get_session_object()`: reuse the session named by the client's cookie
      when the store knows it, refreshing its `last_used`; otherwise create one
      under the hex encoding of `random` with user agent `choice`. An id that
      collides with an existing one overwrites it, as the source does. */
  function GetSessionObject(store: Store, cookie: Option<string>, now: int,
                            random: seq<byte>, choice: nat): (r: Resolution)
    requires |random| == 16
    requires choice < |UserAgents|
    // a fresh session exactly when the cookie is missing, empty or unknown
    ensures r.created <==> cookie.None? || cookie.value == "" || cookie.value !in store
    // either way the returned client is the one stored, just used
    ensures r.sessionId in r.store && r.store[r.sessionId] == Record(r.client, now)
    ensures r.store.Keys == store.Keys + {r.sessionId}
    ensures forall id :: id in store && id != r.sessionId ==> r.store[id] == store[id]
    // reuse: same id, same client, only `last_used` moves
    ensures !r.created ==> cookie == Some(r.sessionId) && r.client == store[r.sessionId].client
    ensures !r.created ==> r.store.Keys == store.Keys
    // creation: a 32-hex-digit id from the random bytes, a fresh client
    ensures r.created ==> r.sessionId == Hex(random) && IsSessionId(r.sessionId) && Unhex(r.sessionId) == random
    ensures r.created ==> r.client == NewClient(choice)
    ensures r.created ==> Get(r.client.headers, "User-Agent") == Some(UserAgents[choice]) && r.client.jar == map[]
    ensures ValidStore(store) ==> ValidStore(r.store)
  {
    if cookie.None? || cookie.value == "" || cookie.value !in store then
      CreateSession(store, now, random, choice)
    else
      var id := cookie.value;
      var client := store[id].client;
      Resolution(Put(store, id, client, now), id, client, false)
  }

  /** The creation branch of `get_session_object`. */
  function CreateSession(store: Store, now: int, random: seq<byte>, choice: nat): (r: Resolution)
    requires |random| == 16
    requires choice < |UserAgents|
    ensures r.created && r.sessionId == Hex(random) && IsSessionId(r.sessionId) && Unhex(r.sessionId) == random
    ensures r.client == NewClient(choice)
    ensures r.store == Put(store, r.sessionId, r.client, now)
  {
    var id := Hex(random);
    UnhexHex(random);
    var client := NewClient(choice);
    Resolution(Put(store, id, client, now), id, client, true)
  }

  /** `SESSION_STORE[id]` holding `client`, last used at `now`; every other
      record as it was. */
  function Put(store: Store, id: string, client: Client, now: int): (r: Store)
    ensures id in r && r[id] == Record(client, now)
    ensures r.Keys == store.Keys + {id}
    ensures forall other :: other in store && other != id ==> r[other] == store[other]
  {
    store[id := Record(client, now)]
  }

  // ----- eviction: `cleanup_old_sessions` -----

  /** Idle for more than the limit at time `now`. */
  predicate IsIdle(rec: Record, now: int) {
    now - rec.lastUsed > IdleLimit
  }

  /** Reference definition of eviction: the store restricted to the records
      that are not idle. */
  function Evict(store: Store, now: int): Store {
    map id | id in store && !IsIdle(store[id], now) :: store[id]
  }

  /** `cleanup_old_sessions()`: collect the ids idle for more than 1800
      seconds, then delete each one (a missing id is skipped, as the
      `KeyError` handler does). */
  method CleanupOldSessions(store: Store, now: int) returns (kept: Store)
    ensures forall id :: id in kept <==> id in store && now - store[id].lastUsed <= IdleLimit
    ensures forall id :: id in kept ==> kept[id] == store[id]
    ensures kept == Evict(store, now)
  {
    var expired: seq<string> := [];
    var todo := store.Keys;
    while todo != {}
      invariant todo <= store.Keys
      invariant forall id :: id in expired <==> id in store && id !in todo && IsIdle(store[id], now)
      decreases todo
    {
      var id :| id in todo;
      if IsIdle(store[id], now) {
        expired := expired + [id];
      }
      todo := todo - {id};
    }
    kept := store;
    var i := 0;
    while i < |expired|
      invariant 0 <= i <= |expired|
      invariant forall id :: id in kept <==> id in store && id !in expired[..i]
      invariant forall id :: id in kept ==> kept[id] == store[id]
    {
      kept := kept - {expired[i]};
      i := i + 1;
    }
    assert expired[..i] == expired;
  }

  /** A second clean-up at the same time removes nothing. */
  lemma EvictIdempotent(store: Store, now: int)
    ensures Evict(Evict(store, now), now) == Evict(store, now)
  {
  }

  /** Eviction keeps the store's ids valid. */
  lemma EvictPreservesValidity(store: Store, now: int)
    requires ValidStore(store)
    ensures ValidStore(Evict(store, now))
  {
  }

  /** Session affinity: a client that presents the id it was given gets the
      same client context back, provided no clean-up ran more than 1800
      seconds after its last use. */
  lemma SessionAffinity(store: Store, cookie: Option<string>, now: int, random: seq<byte>, choice: nat,
                        cleanupAt: int, later: int, random': seq<byte>, choice': nat)
    requires |random| == 16 && |random'| == 16
    requires choice < |UserAgents| && choice' < |UserAgents|
    requires cleanupAt - now <= IdleLimit
    ensures var first := GetSessionObject(store, cookie, now, random, choice);
            var second := GetSessionObject(Evict(first.store, cleanupAt), Some(first.sessionId), later, random', choice');
            !second.created && second.sessionId == first.sessionId && second.client == first.client
  {
    var first := GetSessionObject(store, cookie, now, random, choice);
    assert first.sessionId != "" by {
      if first.created { assert |first.sessionId| == 32; }
    }
    assert first.sessionId in Evict(first.store, cleanupAt);
  }
}
