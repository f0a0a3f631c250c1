/** The shared API security layer: the client-address rule, the API-key
    decision and the rate-limit middleware built on the sliding window.
    Environment variables are passed in as optional strings; the request's
    path, `X-API-Key` and `X-Forwarded-For` headers and peer address are
    parameters. */
module SharedSecurity {
  import opened Wrappers
  import opened Text
  import opened SlidingWindow

  const DefaultApiKeys := "aegis-dev-key,aegis-admin-key"
  const PublicPaths: set<string> := {"/", "/health", "/docs", "/openapi.json", "/redoc"}
  const DefaultLimit := 100
  const DefaultWindow := 60

  /** `VALID_API_KEYS`: the comma-separated entries of `API_KEYS`, or of the default. */
  function ValidApiKeys(apiKeysEnv: Option<string>): (keys: set<string>)
    ensures forall k :: k in keys ==> ',' !in k
  {
    var fields := Split(apiKeysEnv.GetOr(DefaultApiKeys), ',');
    set i | 0 <= i < |fields| :: fields[i]
  }

  /** `get_client_ip`: the first entry of a non-empty `X-Forwarded-For`,
      stripped; otherwise the peer's host, or "unknown" without a peer. */
  function ClientIp(forwarded: Option<string>, peer: Option<string>): string {
    if forwarded.Some? && forwarded.value != "" then Strip(FirstField(forwarded.value, ','))
    else if peer.Some? then peer.value
    else "unknown"
  }

  /** What the address is, stated without `split` and `strip`: from a non-empty
      header it is a comma-free piece of the header's first entry with only
      whitespace around it inside that entry, and the entry runs to the first
      comma or to the end. */
  lemma ClientIpIsFirstEntry(forwarded: string, peer: Option<string>)
    requires forwarded != ""
    ensures var ip := ClientIp(Some(forwarded), peer);
      exists n, i ::
        && 0 <= n <= |forwarded| && ',' !in forwarded[..n]
        && (n < |forwarded| ==> forwarded[n] == ',')
        && TrimmedAt(forwarded[..n], ip, i)
  {
    var entry := FirstField(forwarded, ',');
    FirstFieldIsPrefix(forwarded, ',');
    var ip := Strip(entry);
    var n := |entry|;
    var i := SkipSpace(entry, 0);
    assert forwarded[..n] == entry;
    assert TrimmedAt(forwarded[..n], ip, i);
    assert 0 <= n <= |forwarded| && ',' !in forwarded[..n] && (n < |forwarded| ==> forwarded[n] == ',');
    assert ClientIp(Some(forwarded), peer) == ip;
  }

  /** Without the header, the address is the peer's or "unknown". */
  lemma ClientIpWithoutHeader(forwarded: Option<string>, peer: Option<string>)
    requires forwarded.None? || forwarded.value == ""
    ensures ClientIp(forwarded, peer) == peer.GetOr("unknown")
  {
  }

  predicate IsPublic(path: string) {
    path in PublicPaths || StartsWith(path, "/docs") || StartsWith(path, "/redoc")
  }

  /** `verify_api_key`, in its order: public paths, then the development
      switch, then a missing key (401), then an unknown key (403). */
  function VerifyApiKey(path: string, apiKey: Option<string>, disableAuthEnv: Option<string>,
                        validKeys: set<string>): (r: Reply<string>)
    ensures IsPublic(path) ==> r == Ok("public")
    ensures !IsPublic(path) && IsTrueFlag(disableAuthEnv.GetOr("false")) ==> r == Ok("dev-mode")
    ensures r.Err? ==> r.code == 401 || r.code == 403
  {
    if path in PublicPaths then Ok("public")
    else if StartsWith(path, "/docs") || StartsWith(path, "/redoc") then Ok("public")
    else if IsTrueFlag(disableAuthEnv.GetOr("false")) then Ok("dev-mode")
    else if apiKey.None? || apiKey.value == "" then Err(401, "Missing API key. Include X-API-Key header.")
    else if apiKey.value !in validKeys then Err(403, "Invalid API key")
    else Ok(apiKey.value)
  }

  /** With authentication on, a protected path is let through exactly when the
      request carries a configured key, and the key is what is returned; a
      missing key and an unknown key are told apart by 401 and 403. */
  lemma KeyDecision(path: string, apiKey: Option<string>, disableAuthEnv: Option<string>, validKeys: set<string>)
    requires !IsPublic(path) && !IsTrueFlag(disableAuthEnv.GetOr("false"))
    ensures var r := VerifyApiKey(path, apiKey, disableAuthEnv, validKeys);
      && (r.Ok? <==> apiKey.Some? && apiKey.value != "" && apiKey.value in validKeys)
      && (r.Ok? ==> r.value == apiKey.value)
      && (r.Err? && r.code == 401 <==> apiKey.None? || apiKey.value == "")
      && (r.Err? && r.code == 403 <==> apiKey.Some? && apiKey.value != "" && apiKey.value !in validKeys)
  {
  }

  lemma SplitPair(a: string, b: string)
    requires ',' !in a && ',' !in b
    ensures Split(a + [','] + b, ',') == [a, b]
  {
    var s := a + [','] + b;
    assert s[..|a|] == a && s[|a| + 1..] == b;
    SplitAtFirst(s, ',', |a|);
    SplitNone(b, ',');
  }

  /** The keys accepted when `API_KEYS` is unset. */
  lemma DefaultKeys()
    ensures ValidApiKeys(None) == {"aegis-dev-key", "aegis-admin-key"}
  {
    var a, b := "aegis-dev-key", "aegis-admin-key";
    assert DefaultApiKeys == a + [','] + b;
    SplitPair(a, b);
    KeysOfTwo([a, b]);
  }

  /** Unless `DISABLE_AUTH` is set to "true" in some letter case, the key is
      checked: with the variable unset, the default keys are the only way in. */
  lemma DefaultsEnforceKeys(path: string, apiKey: Option<string>)
    requires !IsPublic(path)
    ensures var r := VerifyApiKey(path, apiKey, None, ValidApiKeys(None));
      r.Ok? <==> apiKey == Some("aegis-dev-key") || apiKey == Some("aegis-admin-key")
  {
    DefaultKeys();
    assert |"false"| == 5;
    KeyDecision(path, apiKey, None, ValidApiKeys(None));
  }

  lemma KeysOfTwo(fields: seq<string>)
    requires |fields| == 2
    ensures (set i | 0 <= i < |fields| :: fields[i]) == {fields[0], fields[1]}
  {
    var keys := set i | 0 <= i < |fields| :: fields[i];
    assert fields[0] in keys && fields[1] in keys;
  }

  /** The 429 message names the configured numbers. */
  function RateLimitDetail(limit: int, window: int): string {
    "Rate limit exceeded. Max " + IntToString(limit) + " requests per " + IntToString(window) + " seconds."
  }

  /** `rate_limit_store` with the configured limit and window, and the two
      functions that use it. */
  class RateLimiter {
    const limit: int
    const window: int
    var store: map<string, seq<int>>

    /** `defaultdict(list)`: a client never seen has an empty list. */
    function Times(client: string): seq<int>
      reads this
    {
      if client in store then store[client] else []
    }

    constructor (limit: int, window: int)
      ensures this.limit == limit && this.window == window && store == map[]
    {
      this.limit := limit;
      this.window := window;
      store := map[];
    }

    /** `check_rate_limit`: the client's list is pruned in any case; `now` is
        appended only when fewer than `limit` times remain. */
    method CheckRateLimit(client: string, now: int) returns (allowed: bool)
      modifies this
      ensures (allowed, Times(client)) == Admit(old(Times(client)), now, limit, window)
      ensures store == old(store)[client := Times(client)]
    {
      var recent := Recent(Times(client), now - window);
      store := store[client := recent];
      if |store[client]| >= limit {
        return false;
      }
      store := store[client := store[client] + [now]];
      allowed := true;
    }

    /** `RateLimitMiddleware.dispatch`: exact public paths pass untouched;
        other requests pass or get 429 by the client's window. `Ok` means the
        request goes on to its handler. */
    method Dispatch(path: string, forwarded: Option<string>, peer: Option<string>, now: int)
      returns (r: Reply<()>)
      modifies this
      ensures path in PublicPaths ==> r == Ok(()) && store == old(store)
      ensures path !in PublicPaths ==>
        var client := ClientIp(forwarded, peer);
        var (allowed, kept) := Admit(old(Times(client)), now, limit, window);
        && store == old(store)[client := kept]
        && (r.Ok? <==> allowed)
        && (r.Err? ==> r == Err(429, RateLimitDetail(limit, window)))
    {
      var client := ClientIp(forwarded, peer);
      if path in PublicPaths {
        return Ok(());
      }
      var allowed := CheckRateLimit(client, now);
      if !allowed {
        return Err(429, RateLimitDetail(limit, window));
      }
      r := Ok(());
    }
  }
}
