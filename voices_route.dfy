/** app/api/voices/route.ts: `GET` lists the provider's voices behind a
    per-client rate limit and a process-wide five-minute cache. The two
    `Date.now()` readings are parameters: `limiterNow` when the rate limit
    is checked, `cacheNow` when the cache is consulted. */
module VoicesRoute {
  import opened Wrappers
  import opened Types
  import opened Http
  import opened ElevenLabs

  const CacheDuration := 5 * 60 * 1000
  const RateLimit := 10
  const RateWindow := 60 * 1000
  const RateLimitExceeded := "Rate limit exceeded. Please try again later."
  const FetchFailed := "Failed to fetch voices"
  const UnknownClient := "unknown"

  /** The limiter's record for one client: calls admitted in the current
      window and the time the window ends. */
  datatype Window = Window(count: int, resetTime: int)

  datatype Admission = Admission(allowed: bool, window: Window)

  /** A record the limiter can hold: at least the call that opened the
      window, and never more than `RateLimit`. */
  predicate Bounded(w: Window) {
    1 <= w.count <= RateLimit
  }

  datatype CacheEntry = CacheEntry(data: seq<Voice>, timestamp: int)

  // ---- the client key ----------------------------------------------------

  /** `s.split(',')[0]`. */
  function FirstField(s: string): (r: string)
    ensures |r| <= |s| && r == s[..|r|]
    ensures forall i :: 0 <= i < |r| ==> r[i] != ','
    ensures |r| < |s| ==> s[|r|] == ','
  {
    if s == [] || s[0] == ',' then [] else [s[0]] + FirstField(s[1..])
  }

  /** The key the limiter files a request under: the first entry of the
      `x-forwarded-for` header, or `unknown` when the header is missing or
      empty. */
  function ClientKey(forwarded: Option<string>): (ip: string)
    ensures forwarded.None? || forwarded == Some("") ==> ip == UnknownClient
    ensures forwarded.Some? && forwarded.value != "" ==>
      && |ip| <= |forwarded.value| && ip == forwarded.value[..|ip|]
      && (forall i :: 0 <= i < |ip| ==> ip[i] != ',')
      && (|ip| < |forwarded.value| ==> forwarded.value[|ip|] == ',')
  {
    if forwarded.None? || forwarded.value == "" then UnknownClient else FirstField(forwarded.value)
  }

  // ---- the rate limiter --------------------------------------------------

  /** One `checkRateLimit` call against a client's record (`None` when the
      limiter has none): a new window when there is none or the old one has
      ended, a refusal when the window is full, otherwise one more call. */
  function Admit(w: Option<Window>, now: int): (a: Admission)
    ensures w.None? || now > w.value.resetTime ==> a == Admission(true, Window(1, now + RateWindow))
    ensures w.Some? && now <= w.value.resetTime ==>
      && (a.allowed <==> w.value.count < RateLimit)
      && a.window.resetTime == w.value.resetTime
      && a.window.count == if a.allowed then w.value.count + 1 else w.value.count
    ensures w.None? || Bounded(w.value) ==> Bounded(a.window)
  {
    if w.None? || now > w.value.resetTime then Admission(true, Window(1, now + RateWindow))
    else if w.value.count >= RateLimit then Admission(false, w.value)
    else Admission(true, Window(w.value.count + 1, w.value.resetTime))
  }

  /** The answers of successive calls from one client at the given times. */
  function Replay(w: Option<Window>, times: seq<int>): (r: seq<bool>)
    ensures |r| == |times|
    decreases |times|
  {
    if times == [] then []
    else
      var a := Admit(w, times[0]);
      [a.allowed] + Replay(Some(a.window), times[1..])
  }

  /** Within a window that has seen `count` calls, exactly the next
      `RateLimit - count` calls are admitted and every later one refused. */
  lemma {:induction false} ReplayWithinWindow(count: int, resetTime: int, times: seq<int>)
    requires 1 <= count <= RateLimit
    requires forall i :: 0 <= i < |times| ==> times[i] <= resetTime
    ensures forall i :: 0 <= i < |times| ==> (Replay(Some(Window(count, resetTime)), times)[i] <==> i < RateLimit - count)
    decreases |times|
  {
    if times != [] {
      var a := Admit(Some(Window(count, resetTime)), times[0]);
      var rest := times[1..];
      var r := Replay(Some(Window(count, resetTime)), times);
      assert forall i :: 0 <= i < |rest| ==> rest[i] == times[i + 1];
      if count < RateLimit {
        ReplayWithinWindow(count + 1, resetTime, rest);
        assert forall i :: 1 <= i < |times| ==> r[i] == Replay(Some(a.window), rest)[i - 1] by {
          assert r == [a.allowed] + Replay(Some(a.window), rest);
        }
      } else {
        RefusedUntilReset(count, resetTime, rest);
      }
    }
  }

  /** A full window refuses every call until it ends. */
  lemma {:induction false} RefusedUntilReset(count: int, resetTime: int, times: seq<int>)
    requires count >= RateLimit
    requires forall i :: 0 <= i < |times| ==> times[i] <= resetTime
    ensures forall i :: 0 <= i < |times| ==> !Replay(Some(Window(count, resetTime)), times)[i]
  {
    if times != [] {
      var rest := times[1..];
      assert forall i :: 0 <= i < |rest| ==> rest[i] == times[i + 1];
      RefusedUntilReset(count, resetTime, rest);
    }
  }

  /** A client with no open window gets exactly `RateLimit` calls admitted
      among those made within `RateWindow` of its first one. */
  lemma AdmitsRateLimitPerWindow(w: Option<Window>, times: seq<int>)
    requires |times| > 0 && (w.None? || times[0] > w.value.resetTime)
    requires forall i :: 0 <= i < |times| ==> times[i] <= times[0] + RateWindow
    ensures forall i :: 0 <= i < |times| ==> (Replay(w, times)[i] <==> i < RateLimit)
  {
    var rest := times[1..];
    assert forall i :: 0 <= i < |rest| ==> rest[i] == times[i + 1];
    ReplayWithinWindow(1, times[0] + RateWindow, rest);
  }

  // ---- the cache ---------------------------------------------------------

  /** The cache answers when it holds an entry younger than `CacheDuration`. */
  predicate CacheFresh(cache: Option<CacheEntry>, now: int) {
    cache.Some? && now - cache.value.timestamp < CacheDuration
  }

  /** The module-level state of the route: `rateLimiter` and `voicesCache`.
      `providerCalls` counts the requests made to the provider's voice list. */
  class VoicesEndpoint {
    var rateLimiter: map<string, Window>
    var voicesCache: Option<CacheEntry>
    ghost var providerCalls: nat

    constructor ()
      ensures rateLimiter == map[] && voicesCache.None? && providerCalls == 0
      ensures LimiterBounded()
    {
      rateLimiter := map[];
      voicesCache := None;
      providerCalls := 0;
    }

    /** Every record in the limiter is `Bounded`. */
    predicate LimiterBounded()
      reads this
    {
      forall ip :: ip in rateLimiter ==> Bounded(rateLimiter[ip])
    }

    function WindowOf(ip: string): Option<Window>
      reads this
    {
      if ip in rateLimiter then Some(rateLimiter[ip]) else None
    }

    /** `checkRateLimit(ip)`. */
    method CheckRateLimit(ip: string, now: int) returns (allowed: bool)
      requires LimiterBounded()
      modifies this`rateLimiter
      ensures LimiterBounded()
      ensures allowed == Admit(old(WindowOf(ip)), now).allowed
      ensures rateLimiter == old(rateLimiter)[ip := Admit(old(WindowOf(ip)), now).window]
    {
      if ip !in rateLimiter || now > rateLimiter[ip].resetTime {
        rateLimiter := rateLimiter[ip := Window(1, now + RateWindow)];
        return true;
      }
      var userLimit := rateLimiter[ip];
      if userLimit.count >= RateLimit {
        assert rateLimiter == rateLimiter[ip := userLimit];
        return false;
      }
      rateLimiter := rateLimiter[ip := userLimit.(count := userLimit.count + 1)];
      allowed := true;
    }

    /** `GET /api/voices`. */
    method Get(forwarded: Option<string>, session: Option<UserId>, limiterNow: int, cacheNow: int,
               provider: ClientProvider, apiKeyEnv: Option<string>,
               fetch: HttpRequest -> Reply<VoiceListReply>) returns (r: Response)
      requires LimiterBounded()
      modifies this, provider
      ensures LimiterBounded()
      ensures var a := Admit(old(WindowOf(ClientKey(forwarded))), limiterNow);
        rateLimiter == old(rateLimiter)[ClientKey(forwarded) := a.window]
      ensures var allowed := Admit(old(WindowOf(ClientKey(forwarded))), limiterNow).allowed;
        !allowed ==> r == Failure(TooManyRequests, RateLimitExceeded)
      ensures var allowed := Admit(old(WindowOf(ClientKey(forwarded))), limiterNow).allowed;
        allowed && session.None? ==> r == Failure(Unauthorized, UnauthorizedMessage)
      ensures var allowed := Admit(old(WindowOf(ClientKey(forwarded))), limiterNow).allowed;
        allowed && session.Some? && CacheFresh(old(voicesCache), cacheNow) ==>
          r == Response(OkStatus, VoiceList(old(voicesCache).value.data))
      ensures var allowed := Admit(old(WindowOf(ClientKey(forwarded))), limiterNow).allowed;
        !(allowed && session.Some? && !CacheFresh(old(voicesCache), cacheNow)) ==>
          && voicesCache == old(voicesCache) && providerCalls == old(providerCalls)
          && provider.elevenLabsClient == old(provider.elevenLabsClient)
      ensures var allowed := Admit(old(WindowOf(ClientKey(forwarded))), limiterNow).allowed;
        allowed && session.Some? && !CacheFresh(old(voicesCache), cacheNow) ==>
          if old(provider.elevenLabsClient) == null && (apiKeyEnv.None? || apiKeyEnv == Some("")) then
            && r == Failure(InternalServerError, FetchFailed)
            && voicesCache == old(voicesCache) && providerCalls == old(providerCalls)
            && provider.elevenLabsClient == null
          else
            && provider.elevenLabsClient != null
            && (old(provider.elevenLabsClient) != null ==> provider.elevenLabsClient == old(provider.elevenLabsClient))
            && (old(provider.elevenLabsClient) == null ==> provider.elevenLabsClient.apiKey == apiKeyEnv.value)
            && providerCalls == old(providerCalls) + 1
            && match provider.elevenLabsClient.ListVoices(fetch)
               case Err(_) => r == Failure(InternalServerError, FetchFailed) && voicesCache == old(voicesCache)
               case Ok(voices) =>
                 r == Response(OkStatus, VoiceList(voices)) && voicesCache == Some(CacheEntry(voices, cacheNow))
    {
      var ip := ClientKey(forwarded);
      var allowed := CheckRateLimit(ip, limiterNow);
      if !allowed {
        return Failure(TooManyRequests, RateLimitExceeded);
      }
      if session.None? {
        return Failure(Unauthorized, UnauthorizedMessage);
      }
      if voicesCache.Some? && cacheNow - voicesCache.value.timestamp < CacheDuration {
        return Response(OkStatus, VoiceList(voicesCache.value.data));
      }
      var client := provider.GetElevenLabsClient(apiKeyEnv);
      if client.Err? {
        return Failure(InternalServerError, FetchFailed);
      }
      providerCalls := providerCalls + 1;
      var voices := client.value.ListVoices(fetch);
      if voices.Err? {
        return Failure(InternalServerError, FetchFailed);
      }
      voicesCache := Some(CacheEntry(voices.value, cacheNow));
      r := Response(OkStatus, VoiceList(voices.value));
    }

    /** What the cache is for: when the first of two requests less than
        `CacheDuration` apart (by the cache's clock) is answered 200, the two
        together make at most one provider call. The first may itself be a
        cache hit on an older entry, in which case the second may fetch. */
    method GetTwice(forwarded1: Option<string>, session1: Option<UserId>, limiterNow1: int, cacheNow1: int,
                    forwarded2: Option<string>, session2: Option<UserId>, limiterNow2: int, cacheNow2: int,
                    provider: ClientProvider, apiKeyEnv: Option<string>,
                    fetch: HttpRequest -> Reply<VoiceListReply>) returns (r1: Response, r2: Response)
      requires LimiterBounded()
      requires cacheNow2 - cacheNow1 < CacheDuration
      modifies this, provider
      ensures LimiterBounded()
      ensures r1.status == OkStatus ==> providerCalls <= old(providerCalls) + 1
    {
      r1 := Get(forwarded1, session1, limiterNow1, cacheNow1, provider, apiKeyEnv, fetch);
      r2 := Get(forwarded2, session2, limiterNow2, cacheNow2, provider, apiKeyEnv, fetch);
    }
  }
}
