/**
 * llminfo_cli/providers/generic.py: a provider configured by settings. The
 * HTTP round trip is the parameter `outcome` (the status and decoded body the
 * server answers, or a transport failure), the process environment is a map,
 * and the clock is the parameter `now`. Each operation also returns the
 * request it would send, or None when it sends none.
 */
module Generic {
  import opened Wrappers
  import opened JsonValues
  import opened Errors
  import opened Schemas
  import opened Parsers
  import opened Cache
  import opened Decimal

  /** What the server answers to one GET. */
  datatype HttpOutcome =
    | Response(status: nat, body: Json)
    | TransportFailure(cause: string)

  /** One GET: the URL, the Authorization header and the timeout in seconds. */
  datatype Request = Request(url: string, authorization: string, timeoutSeconds: real)

  const RequestTimeout: real := 30.0

  const BearerPrefix: string := "Bearer "

  /** The Authorization value of section 2.1 of RFC 6750: the scheme, one space, the token. */
  function BearerHeader(key: string): string
  {
    BearerPrefix + key
  }

  /** The token of a Bearer Authorization value, if it is one. */
  function BearerToken(header: string): Option<string>
  {
    if |header| >= |BearerPrefix| && header[..|BearerPrefix|] == BearerPrefix then
      Some(header[|BearerPrefix|..])
    else None
  }

  /** The header carries the key and only the key. */
  lemma BearerRoundTrip(key: string)
    ensures BearerToken(BearerHeader(key)) == Some(key)
  {
    assert BearerHeader(key)[..|BearerPrefix|] == BearerPrefix;
    assert BearerHeader(key)[|BearerPrefix|..] == key;
  }

  /** `raise_for_status` lets 2xx through. */
  predicate IsSuccess(status: nat) { 200 <= status < 300 }

  /** The constructor arguments of GenericProvider. */
  datatype ProviderSettings = ProviderSettings(
    name: string,
    baseUrl: string,
    apiKeyEnv: string,
    modelsEndpoint: string,
    parser: ResponseParser,
    apiKey: Option<string>,
    creditsEndpoint: Option<string>)

  // ---------------------------------------------------------------------------
  // ProviderFactory

  /** `create_openai_compatible`: the OpenAI-compatible parser reading "data". */
  function CreateOpenAICompatible(name: string, baseUrl: string, apiKeyEnv: string,
                                  modelsEndpoint: string := "/models",
                                  creditsEndpoint: Option<string> := None,
                                  apiKey: Option<string> := None): (s: ProviderSettings)
    ensures s.parser == DefaultOpenAICompatible
    ensures s.name == name && s.baseUrl == baseUrl && s.apiKeyEnv == apiKeyEnv
    ensures s.modelsEndpoint == modelsEndpoint && s.creditsEndpoint == creditsEndpoint && s.apiKey == apiKey
  {
    ProviderSettings(name, baseUrl, apiKeyEnv, modelsEndpoint, DefaultOpenAICompatible, apiKey, creditsEndpoint)
  }

  const OpenRouterBaseUrl: string := "https://openrouter.ai/api/v1"

  /** `create_openrouter`: everything but the key is fixed. */
  function CreateOpenRouter(apiKey: Option<string> := None): (s: ProviderSettings)
    ensures s.name == "openrouter" && s.apiKeyEnv == "OPENROUTER_API_KEY" && s.parser == OpenRouterParser
    ensures s.apiKey == apiKey
  {
    ProviderSettings("openrouter", OpenRouterBaseUrl, "OPENROUTER_API_KEY", "/models", OpenRouterParser,
                     apiKey, Some("/credits"))
  }

  // ---------------------------------------------------------------------------
  // The pure parts of a call

  /** `if not self.api_key` fails. */
  predicate HasKey(key: Option<string>) { key.Some? && key.value != "" }

  /** `api_key or os.environ.get(api_key_env)` */
  function ResolveApiKey(explicit: Option<string>, apiKeyEnv: string, env: map<string, string>): (k: Option<string>)
    ensures HasKey(explicit) ==> k == explicit
    ensures !HasKey(explicit) && apiKeyEnv in env ==> k == Some(env[apiKeyEnv])
    ensures HasKey(k) <==> HasKey(explicit) || (apiKeyEnv in env && env[apiKeyEnv] != "")
  {
    if HasKey(explicit) then explicit
    else if apiKeyEnv in env then Some(env[apiKeyEnv])
    else None
  }

  function MissingKey(s: ProviderSettings): Exc
  {
    ValueError(KeyNotSet(s.apiKeyEnv))
  }

  function ModelsRequest(s: ProviderSettings, key: string): Request
  {
    Request(s.baseUrl + s.modelsEndpoint, BearerHeader(key), RequestTimeout)
  }

  function CreditsRequest(s: ProviderSettings, key: string, endpoint: string): Request
  {
    Request(s.baseUrl + endpoint, BearerHeader(key), RequestTimeout)
  }

  /**
   * The `except httpx.HTTPStatusError` arm: 401 and 429 become the two typed
   * subclasses, every other status a plain APIError carrying it.
   */
  function MapHttpStatus(status: nat, provider: string): (e: Exc)
    ensures e.IsAPIError() && e.StatusCode() == Some(status as int) && e.provider == Some(provider)
    ensures e.AuthenticationError? <==> status == 401
    ensures e.RateLimitError? <==> status == 429
    ensures e.RateLimitError? ==> e.retryAfter == None
  {
    if status == 401 then
      NewAuthenticationError("Authentication failed for provider " + provider, Some(provider))
    else if status == 429 then
      NewRateLimitError("Rate limit exceeded for provider " + provider, provider := Some(provider))
    else
      NewAPIError("API request failed with status " + NatToString(status) + " for provider " + provider,
                  Some(status as int), Some(provider))
  }

  /** The `except httpx.RequestError` arm: a NetworkError keeping the original error. */
  function MapTransport(cause: string, provider: string): (e: Exc)
    ensures e.NetworkError? && e.IsLLMInfoError() && !e.IsAPIError()
    ensures e.originalError == Some(RequestError(cause))
  {
    NewNetworkError("Network error occurred for provider " + provider, Some(RequestError(cause)))
  }

  /** What `get_models` does, on the cache directory before the call. */
  datatype ModelsCall = ModelsCall(result: Result<seq<ModelInfo>, Exc>, files: map<string, CacheFile>, sent: Option<Request>)

  function ModelsFlow(s: ProviderSettings, key: Option<string>, files: map<string, CacheFile>,
                      useCache: bool, now: int, outcome: HttpOutcome): ModelsCall
  {
    if !HasKey(key) then ModelsCall(Err(MissingKey(s)), files, None)
    else if useCache && Lookup(files, s.name, now).Some? then
      ModelsCall(Ok(Lookup(files, s.name, now).value), files, None)
    else
      var req := Some(ModelsRequest(s, key.value));
      match outcome
      case TransportFailure(cause) => ModelsCall(Err(MapTransport(cause, s.name)), files, req)
      case Response(status, body) =>
        if !IsSuccess(status) then ModelsCall(Err(MapHttpStatus(status, s.name)), files, req)
        else
          match ParseModels(s.parser, body)
          case Err(e) => ModelsCall(Err(e), files, req)
          case Ok(models) => ModelsCall(Ok(models), Store(files, s.name, models, now), req)
  }

  /** What `get_credits` does; it never touches the cache. */
  datatype CreditsCall = CreditsCall(result: Result<Option<CreditInfo>, Exc>, sent: Option<Request>)

  function CreditsFlow(s: ProviderSettings, key: Option<string>, outcome: HttpOutcome): CreditsCall
  {
    if !HasKey(key) then CreditsCall(Err(MissingKey(s)), None)
    else if s.creditsEndpoint.None? || s.creditsEndpoint.value == "" then CreditsCall(Ok(None), None)
    else
      var req := Some(CreditsRequest(s, key.value, s.creditsEndpoint.value));
      match outcome
      case TransportFailure(cause) => CreditsCall(Err(MapTransport(cause, s.name)), req)
      case Response(status, body) =>
        if !IsSuccess(status) then CreditsCall(Err(MapHttpStatus(status, s.name)), req)
        else CreditsCall(ParseCredits(s.parser, body), req)
  }

  // ---------------------------------------------------------------------------
  // The provider object

  class GenericProvider {
    const settings: ProviderSettings
    /** `self.api_key`, resolved once at construction. */
    const apiKey: Option<string>
    /** The cache directory; providers constructed over the same manager share it. */
    const cache: CacheManager

    /** `GenericProvider(...)` with the environment read at construction time. */
    constructor(settings: ProviderSettings, env: map<string, string>, cache: CacheManager)
      ensures this.settings == settings && this.cache == cache
      ensures apiKey == ResolveApiKey(settings.apiKey, settings.apiKeyEnv, env)
    {
      this.settings := settings;
      this.apiKey := ResolveApiKey(settings.apiKey, settings.apiKeyEnv, env);
      this.cache := cache;
    }

    /** The `provider_name` property: the name the provider was configured with. */
    function ProviderName(): (n: string)
      ensures n == settings.name
    {
      settings.name
    }

    /** `get_models(use_cache)`: key check, cache read, request, parse, cache write. */
    method GetModels(useCache: bool, now: int, outcome: HttpOutcome) returns (r: Result<seq<ModelInfo>, Exc>, sent: Option<Request>)
      modifies cache
      ensures var call := ModelsFlow(settings, apiKey, old(cache.files), useCache, now, outcome);
              r == call.result && cache.files == call.files && sent == call.sent
    {
      sent := None;
      if !HasKey(apiKey) {
        return Err(MissingKey(settings)), None;
      }
      if useCache {
        var cached := cache.Get(settings.name, now);
        if cached.Some? {
          return Ok(cached.value), None;
        }
      }
      var request := ModelsRequest(settings, apiKey.value);
      sent := Some(request);
      match outcome {
        case TransportFailure(cause) =>
          r := Err(MapTransport(cause, settings.name));
        case Response(status, body) =>
          if !IsSuccess(status) {
            r := Err(MapHttpStatus(status, settings.name));
          } else {
            var parsed := ParseModels(settings.parser, body);
            if parsed.Err? {
              r := Err(parsed.error);
            } else {
              cache.Set(settings.name, parsed.value, now);
              r := Ok(parsed.value);
            }
          }
      }
    }

    /** `get_credits()`: key check, then a request only when a credits endpoint is set. */
    method GetCredits(outcome: HttpOutcome) returns (r: Result<Option<CreditInfo>, Exc>, sent: Option<Request>)
      ensures r == CreditsFlow(settings, apiKey, outcome).result
      ensures sent == CreditsFlow(settings, apiKey, outcome).sent
    {
      if !HasKey(apiKey) {
        return Err(MissingKey(settings)), None;
      }
      if settings.creditsEndpoint.None? || settings.creditsEndpoint.value == "" {
        return Ok(None), None;
      }
      sent := Some(CreditsRequest(settings, apiKey.value, settings.creditsEndpoint.value));
      match outcome {
        case TransportFailure(cause) =>
          r := Err(MapTransport(cause, settings.name));
        case Response(status, body) =>
          if !IsSuccess(status) {
            r := Err(MapHttpStatus(status, settings.name));
          } else {
            r := ParseCredits(settings.parser, body);
          }
      }
    }
  }
}

module GenericProperties {
  import opened Wrappers
  import opened JsonValues
  import opened Errors
  import opened Schemas
  import opened Parsers
  import opened Cache
  import opened Generic

  /** Without a key both calls fail naming the variable, before any cache read or request. */
  lemma KeyCheckedFirst(s: ProviderSettings, key: Option<string>, files: map<string, CacheFile>,
                        useCache: bool, now: int, outcome: HttpOutcome)
    requires !HasKey(key)
    ensures ModelsFlow(s, key, files, useCache, now, outcome) == ModelsCall(Err(ValueError(KeyNotSet(s.apiKeyEnv))), files, None)
    ensures CreditsFlow(s, key, outcome) == CreditsCall(Err(ValueError(KeyNotSet(s.apiKeyEnv))), None)
  {
  }

  /**
   * `get_models` sends a request exactly when there is a key and the cache
   * was not consulted or missed; the request goes to base_url + models_endpoint
   * with the key as Bearer token and a 30 s timeout.
   */
  lemma ModelsRequestSent(s: ProviderSettings, key: Option<string>, files: map<string, CacheFile>,
                          useCache: bool, now: int, outcome: HttpOutcome)
    ensures var call := ModelsFlow(s, key, files, useCache, now, outcome);
            call.sent.Some? <==> HasKey(key) && !(useCache && Lookup(files, s.name, now).Some?)
    ensures var call := ModelsFlow(s, key, files, useCache, now, outcome);
            call.sent.Some? ==> && call.sent.value.url == s.baseUrl + s.modelsEndpoint
                                && BearerToken(call.sent.value.authorization) == key
                                && call.sent.value.timeoutSeconds == 30.0
  {
    if HasKey(key) {
      BearerRoundTrip(key.value);
    }
  }

  /** A cache hit is returned as is: no request, nothing written. */
  lemma CacheHitShortCircuits(s: ProviderSettings, key: Option<string>, files: map<string, CacheFile>,
                              now: int, outcome: HttpOutcome)
    requires HasKey(key) && CacheFileName(s.name) in files
    requires now - files[CacheFileName(s.name)].cachedAt <= CacheTtl
    ensures ModelsFlow(s, key, files, true, now, outcome) ==
            ModelsCall(Ok(files[CacheFileName(s.name)].models), files, None)
  {
  }

  /**
   * The cache is written only by a successful fetch, whatever `use_cache`
   * was, and only the provider's own entry changes; afterwards the entry reads
   * back as the returned models. A failed call leaves the cache as it was.
   */
  lemma ModelsCacheEffect(s: ProviderSettings, key: Option<string>, files: map<string, CacheFile>,
                          useCache: bool, now: int, outcome: HttpOutcome, other: string, later: int)
    requires other != s.name
    ensures var call := ModelsFlow(s, key, files, useCache, now, outcome);
            call.result.Err? ==> call.files == files
    ensures var call := ModelsFlow(s, key, files, useCache, now, outcome);
            call.result.Ok? ==> Lookup(call.files, s.name, now) == Some(call.result.value)
    ensures var call := ModelsFlow(s, key, files, useCache, now, outcome);
            call.files != files ==> call.sent.Some? && call.result.Ok? &&
                                    call.files == Store(files, s.name, call.result.value, now)
    ensures var call := ModelsFlow(s, key, files, useCache, now, outcome);
            Lookup(call.files, other, later) == Lookup(files, other, later)
  {
    var call := ModelsFlow(s, key, files, useCache, now, outcome);
    if call.files != files {
      StoreKeepsOthers(files, s.name, other, call.result.value, now, later);
    }
  }

  /** Models fetched from the server are served from the cache, with no request, for the next hour. */
  lemma FetchThenCacheHit(s: ProviderSettings, key: Option<string>, files: map<string, CacheFile>,
                          useCache: bool, now: int, outcome: HttpOutcome, later: int, outcome2: HttpOutcome)
    requires ModelsFlow(s, key, files, useCache, now, outcome).result.Ok?
    requires ModelsFlow(s, key, files, useCache, now, outcome).sent.Some?
    requires now <= later <= now + CacheTtl
    ensures var first := ModelsFlow(s, key, files, useCache, now, outcome);
            ModelsFlow(s, key, first.files, true, later, outcome2) == ModelsCall(first.result, first.files, None)
  {
    var first := ModelsFlow(s, key, files, useCache, now, outcome);
    StoreThenLookup(files, s.name, first.result.value, now, later);
  }

  /** A parser failure reaches the caller unchanged and nothing is cached. */
  lemma ParseFailurePropagates(s: ProviderSettings, key: Option<string>, files: map<string, CacheFile>,
                               now: int, status: nat, body: Json)
    requires HasKey(key) && IsSuccess(status) && ParseModels(s.parser, body).Err?
    ensures ModelsFlow(s, key, files, false, now, Response(status, body)) ==
            ModelsCall(ParseModels(s.parser, body), files, Some(ModelsRequest(s, key.value)))
  {
  }

  /**
   * Both calls map a failed request the same way: a non-2xx status becomes
   * MapHttpStatus, a transport failure a NetworkError.
   */
  lemma FailuresMappedAlike(s: ProviderSettings, key: Option<string>, files: map<string, CacheFile>,
                            useCache: bool, now: int, outcome: HttpOutcome)
    requires HasKey(key) && !(useCache && Lookup(files, s.name, now).Some?)
    requires s.creditsEndpoint.Some? && s.creditsEndpoint.value != ""
    requires outcome.TransportFailure? || !IsSuccess(outcome.status)
    ensures ModelsFlow(s, key, files, useCache, now, outcome).result.Err?
    ensures CreditsFlow(s, key, outcome).result.Err?
    ensures ModelsFlow(s, key, files, useCache, now, outcome).result.error == CreditsFlow(s, key, outcome).result.error
    ensures outcome.Response? ==>
              CreditsFlow(s, key, outcome).result == Err(MapHttpStatus(outcome.status, s.name))
    ensures outcome.TransportFailure? ==>
              CreditsFlow(s, key, outcome).result == Err(MapTransport(outcome.cause, s.name))
  {
  }

  /**
   * `get_credits` sends a request exactly when there is a key and a non-empty
   * credits endpoint; with no endpoint it answers None.
   */
  lemma CreditsRequestSent(s: ProviderSettings, key: Option<string>, outcome: HttpOutcome)
    ensures CreditsFlow(s, key, outcome).sent.Some? <==>
              HasKey(key) && s.creditsEndpoint.Some? && s.creditsEndpoint.value != ""
    ensures HasKey(key) && (s.creditsEndpoint.None? || s.creditsEndpoint.value == "") ==>
              CreditsFlow(s, key, outcome).result == Ok(None)
    ensures CreditsFlow(s, key, outcome).sent.Some? ==>
              && CreditsFlow(s, key, outcome).sent.value.url == s.baseUrl + s.creditsEndpoint.value
              && BearerToken(CreditsFlow(s, key, outcome).sent.value.authorization) == key
  {
    if HasKey(key) {
      BearerRoundTrip(key.value);
    }
  }

  /** The OpenRouter factory sends to the fixed OpenRouter URLs. */
  lemma OpenRouterUrls(apiKey: Option<string>, key: Option<string>, files: map<string, CacheFile>, now: int, outcome: HttpOutcome)
    requires HasKey(key)
    ensures ModelsFlow(CreateOpenRouter(apiKey), key, files, false, now, outcome).sent.value.url ==
            "https://openrouter.ai/api/v1/models"
    ensures CreditsFlow(CreateOpenRouter(apiKey), key, outcome).sent.value.url ==
            "https://openrouter.ai/api/v1/credits"
  {
  }

  // ---------------------------------------------------------------------------
  // As written

  /** `CacheManager(**kwargs)`: the constructor accepts no keyword arguments. */
  function CacheManagerCallAsWritten(keywords: set<string>): (r: Option<Exc>)
    ensures r.None? <==> keywords == {}
    ensures r.Some? ==> r.value == TypeError
  {
    if keywords == {} then None else Some(TypeError)
  }

  /**
   * `GenericProvider.__init__` as written: it calls
   * `CacheManager(ttl_hours=cache_ttl_hours)` and so raises TypeError for
   * every argument list. The result is the exception raised, if any.
   */
  function GenericProviderInitAsWritten(s: ProviderSettings, env: map<string, string>, cacheTtlHours: int): (r: Option<Exc>)
    ensures r == Some(TypeError)
  {
    CacheManagerCallAsWritten({"ttl_hours"})
  }

  /**
   * `get_models` as written: it awaits the synchronous `get` and `set`.
   * Awaiting a list or None raises TypeError, which no `except` arm catches;
   * on a fetch the file has already been written when it is raised.
   */
  function ModelsFlowAsWritten(s: ProviderSettings, key: Option<string>, files: map<string, CacheFile>,
                               useCache: bool, now: int, outcome: HttpOutcome): (call: ModelsCall)
    ensures call.result.Err?
  {
    if !HasKey(key) then ModelsCall(Err(MissingKey(s)), files, None)
    else if useCache then ModelsCall(Err(TypeError), files, None)
    else
      var fixed := ModelsFlow(s, key, files, false, now, outcome);
      if fixed.result.Ok? then ModelsCall(Err(TypeError), fixed.files, fixed.sent) else fixed
  }

  /** Where the intended call returns models, the call as written raises TypeError instead. */
  lemma AwaitOnSyncCacheDiscrepancy(s: ProviderSettings, key: Option<string>, files: map<string, CacheFile>,
                                    useCache: bool, now: int, outcome: HttpOutcome)
    requires ModelsFlow(s, key, files, useCache, now, outcome).result.Ok?
    ensures ModelsFlowAsWritten(s, key, files, useCache, now, outcome).result == Err(TypeError)
    ensures !useCache ==> ModelsFlowAsWritten(s, key, files, useCache, now, outcome).files ==
                          ModelsFlow(s, key, files, useCache, now, outcome).files
  {
  }
}
