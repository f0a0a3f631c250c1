/** The OSINT service's own copy of the security layer. It differs from the
    shared one: only "/docs" prefixes join the public paths, `DISABLE_AUTH`
    defaults to "true", a missing and an unknown key are both 401, and the
    sliding window is written inline in the middleware. */
module OsintSecurity {
  import opened Wrappers
  import opened Text
  import opened SlidingWindow
  import SharedSecurity

  const PublicPaths: set<string> := {"/", "/health", "/docs", "/openapi.json", "/redoc"}
  const DefaultLimit := 100
  const DefaultWindow := 60

  /** `get_client_ip`, written as one conditional expression. */
  function ClientIp(forwarded: Option<string>, peer: Option<string>): (ip: string)
    ensures ip == SharedSecurity.ClientIp(forwarded, peer)
  {
    if forwarded.Some? && forwarded.value != "" then Strip(Split(forwarded.value, ',')[0])
    else if peer.Some? then peer.value else "unknown"
  }

  predicate IsPublic(path: string) {
    path in PublicPaths || StartsWith(path, "/docs")
  }

  /** `verify_api_key`. */
  function VerifyApiKey(path: string, apiKey: Option<string>, disableAuthEnv: Option<string>,
                        validKeys: set<string>): (r: Reply<string>)
    ensures IsPublic(path) ==> r == Ok("public")
    ensures !IsPublic(path) && IsTrueFlag(disableAuthEnv.GetOr("true")) ==> r == Ok("dev")
    ensures r.Err? ==> r == Err(401, "Invalid or missing API key")
  {
    if path in PublicPaths || StartsWith(path, "/docs") then Ok("public")
    else if IsTrueFlag(disableAuthEnv.GetOr("true")) then Ok("dev")
    else if apiKey.None? || apiKey.value == "" || apiKey.value !in validKeys then
      Err(401, "Invalid or missing API key")
    else Ok(apiKey.value)
  }

  /** With authentication on, a protected path is let through exactly when the
      request carries a configured key, which is returned; every refusal is
      the same 401. */
  lemma KeyDecision(path: string, apiKey: Option<string>, disableAuthEnv: Option<string>, validKeys: set<string>)
    requires !IsPublic(path) && !IsTrueFlag(disableAuthEnv.GetOr("true"))
    ensures var r := VerifyApiKey(path, apiKey, disableAuthEnv, validKeys);
      && (r.Ok? <==> apiKey.Some? && apiKey.value != "" && apiKey.value in validKeys)
      && (r.Ok? ==> r.value == apiKey.value)
  {
  }

  /** With `DISABLE_AUTH` unset, no key is ever checked: every path is let
      through, as "public" or as "dev". */
  lemma DefaultIsOpen(path: string, apiKey: Option<string>, validKeys: set<string>)
    ensures VerifyApiKey(path, apiKey, None, validKeys) == if IsPublic(path) then Ok("public") else Ok("dev")
  {
    assert IsTrueFlag("true");
  }

  /** Where the two copies disagree on the same request: "/redoc/..." paths
      are public only in the shared copy, and an unknown key is 403 there but
      401 here. */
  lemma CopiesDiffer(validKeys: set<string>)
    requires "k" !in validKeys
    ensures SharedSecurity.VerifyApiKey("/redoc/x", None, Some("false"), validKeys) == Ok("public")
    ensures VerifyApiKey("/redoc/x", None, Some("false"), validKeys).Err?
    ensures SharedSecurity.VerifyApiKey("/x", Some("k"), Some("false"), validKeys).code == 403
    ensures VerifyApiKey("/x", Some("k"), Some("false"), validKeys).code == 401
  {
    assert StartsWith("/redoc/x", "/redoc");
    assert !StartsWith("/redoc/x", "/docs") by { assert "/redoc/x"[1] != "/docs"[1]; }
    assert !StartsWith("/x", "/docs") && !StartsWith("/x", "/redoc");
    assert !IsTrueFlag("false") by { assert |"false"| == 5; }
  }

  /** `rate_store` with `RATE_LIMIT` and `RATE_WINDOW`. */
  class RateLimiter {
    const limit: int
    const window: int
    var store: map<string, seq<int>>

    /** `defaultdict(list)`: a client never seen has an empty list. */
    function Times(client: string): seq<int>
      reads this
    {
      if client in store then store[client] else []
    }

    constructor (limit: int, window: int)
      ensures this.limit == limit && this.window == window && store == map[]
    {
      this.limit := limit;
      this.window := window;
      store := map[];
    }

    /** `RateLimitMiddleware.dispatch`: exact public paths pass untouched;
        otherwise the client's list is pruned, the request is refused with 429
        when the pruned list has reached the limit, and `now` is recorded
        when it has not. `Ok` means the request goes on to its handler. */
    method Dispatch(path: string, forwarded: Option<string>, peer: Option<string>, now: int)
      returns (r: Reply<()>)
      modifies this
      ensures path in PublicPaths ==> r == Ok(()) && store == old(store)
      ensures path !in PublicPaths ==>
        var client := ClientIp(forwarded, peer);
        var (allowed, kept) := Admit(old(Times(client)), now, limit, window);
        && store == old(store)[client := kept]
        && (r.Ok? <==> allowed)
        && (r.Err? ==> r == Err(429, "Rate limit exceeded"))
    {
      if path in PublicPaths {
        return Ok(());
      }
      var client := ClientIp(forwarded, peer);
      store := store[client := Recent(Times(client), now - window)];
      if |store[client]| >= limit {
        return Err(429, "Rate limit exceeded");
      }
      store := store[client := store[client] + [now]];
      r := Ok(());
    }
  }
}
