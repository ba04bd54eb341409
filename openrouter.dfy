/**
 * llminfo_cli/providers/openrouter.py: the older, hard-wired OpenRouter
 * provider. It reads the payload's `data` strictly, derives `is_free` from
 * the model id, keeps no cache and maps no HTTP error: the httpx exceptions
 * reach the caller as they are.
 */
module OpenRouterLegacy {
  import opened Wrappers
  import opened JsonValues
  import opened Errors
  import opened Schemas
  import opened Parsers
  import opened Generic

  const BaseUrl: string := "https://openrouter.ai/api/v1"
  const ApiKeyEnv: string := "OPENROUTER_API_KEY"
  const FreeMarker: string := ":free"

  /** `":free" in m["id"]`: a substring test on a string, membership on a list or mapping. */
  function IsFreeId(id: Json): Result<bool, Exc>
  {
    match id
    case JStr(s) => Ok(IsSubstring(FreeMarker, s))
    case JArray(items) => Ok(JStr(FreeMarker) in items)
    case JObject(f) => Ok(FreeMarker in f)
    case _ => Err(TypeError)
  }

  /** One entry: the keyword arguments are evaluated in order, then the record is validated. */
  function LegacyEntry(m: Json): Result<ModelInfo, Exc>
  {
    if !m.JObject? then Err(TypeError)
    else if "id" !in m.fields then Err(KeyError("id"))
    else if "name" !in m.fields then Err(KeyError("name"))
    else
      match IsFreeId(m.fields["id"])
      case Err(e) => Err(e)
      case Ok(free) =>
        NewModelInfo(m.fields["id"], m.fields["name"],
                     Get(m.fields, "context_length", JNull), Get(m.fields, "pricing", JNull), free)
  }

  /** `response.json()["data"]`: only a mapping takes a string index, and the key must be there. */
  function DataOf(body: Json): Result<Json, Exc>
  {
    if !body.JObject? then Err(TypeError)
    else if "data" !in body.fields then Err(KeyError("data"))
    else Ok(body.fields["data"])
  }

  /**
   * The model list of a 2xx body: `response.json()["data"]` must exist, and a
   * `data` that is not a list is iterated by Python's rules, so only an empty
   * string or an empty mapping gets through.
   */
  function LegacyModels(body: Json): (r: Result<seq<ModelInfo>, Exc>)
    ensures !body.JObject? ==> r == Err(TypeError)
    ensures body.JObject? && "data" !in body.fields ==> r == Err(KeyError("data"))
    ensures body.JObject? && "data" in body.fields && !body.fields["data"].JArray? ==>
              r == (if body.fields["data"] in {JStr(""), JObject(map[])} then Ok([]) else Err(TypeError))
  {
    match DataOf(body)
    case Err(e) => Err(e)
    case Ok(data) => EntriesOf(data, LegacyEntry)
  }

  /** The credits of a 2xx body: the credit arithmetic of `response.json()["data"]`. */
  function LegacyCredits(body: Json): (r: Result<Option<CreditInfo>, Exc>)
    ensures !body.JObject? ==> r == Err(TypeError)
    ensures body.JObject? && "data" !in body.fields ==> r == Err(KeyError("data"))
    ensures body.JObject? && "data" in body.fields ==> r == CreditsOf(body.fields["data"])
    ensures r.Ok? ==> r.value.Some? && r.value.value.remaining == r.value.value.totalCredits - r.value.value.usage
  {
    match DataOf(body)
    case Err(e) => Err(e)
    case Ok(data) => CreditsOf(data)
  }

  class OpenRouterProvider {
    /** `self.api_key`, resolved once at construction. */
    const apiKey: Option<string>

    /** `OpenRouterProvider(api_key)` with the environment read at construction time. */
    constructor(apiKey: Option<string>, env: map<string, string>)
      ensures this.apiKey == ResolveApiKey(apiKey, ApiKeyEnv, env)
    {
      this.apiKey := ResolveApiKey(apiKey, ApiKeyEnv, env);
    }

    /** The `provider_name` property. */
    function ProviderName(): (n: string)
      ensures n == "openrouter"
    {
      "openrouter"
    }

    /** The request both calls send to `path`, given a key. */
    function RequestTo(path: string): Request
      requires HasKey(apiKey)
    {
      Request(BaseUrl + path, BearerHeader(apiKey.value), RequestTimeout)
    }

    /**
     * `get_models()`: the result and the request sent, if any. A 2xx body is
     * mapped by LegacyModels; failures are httpx's own errors.
     */
    function GetModels(outcome: HttpOutcome): (r: (Result<seq<ModelInfo>, Exc>, Option<Request>))
      ensures !HasKey(apiKey) <==> r.1.None?
      ensures !HasKey(apiKey) ==> r.0 == Err(ValueError(KeyNotSet(ApiKeyEnv)))
      ensures HasKey(apiKey) && outcome.Response? && IsSuccess(outcome.status) ==> r.0 == LegacyModels(outcome.body)
      ensures r.0.Err? && r.1.Some? ==> r.0.error.HTTPStatusError? || r.0.error.RequestError? || !outcome.Response?
                                         || LegacyModels(outcome.body) == r.0
    {
      if !HasKey(apiKey) then (Err(ValueError(KeyNotSet(ApiKeyEnv))), None)
      else
        var sent := Some(RequestTo("/models"));
        match outcome
        case TransportFailure(cause) => (Err(RequestError(cause)), sent)
        case Response(status, body) =>
          if !IsSuccess(status) then (Err(HTTPStatusError(status)), sent)
          else (LegacyModels(body), sent)
    }

    /**
     * `get_credits()`: the result and the request sent, if any. A 2xx body is
     * mapped by LegacyCredits; failures are httpx's own errors.
     */
    function GetCredits(outcome: HttpOutcome): (r: (Result<Option<CreditInfo>, Exc>, Option<Request>))
      ensures !HasKey(apiKey) <==> r.1.None?
      ensures !HasKey(apiKey) ==> r.0 == Err(ValueError(KeyNotSet(ApiKeyEnv)))
      ensures HasKey(apiKey) && outcome.Response? && IsSuccess(outcome.status) ==> r.0 == LegacyCredits(outcome.body)
      ensures r.0.Ok? ==> r.0.value.Some? && r.0.value.value.remaining == r.0.value.value.totalCredits - r.0.value.value.usage
    {
      if !HasKey(apiKey) then (Err(ValueError(KeyNotSet(ApiKeyEnv))), None)
      else
        var sent := Some(RequestTo("/credits"));
        match outcome
        case TransportFailure(cause) => (Err(RequestError(cause)), sent)
        case Response(status, body) =>
          if !IsSuccess(status) then (Err(HTTPStatusError(status)), sent)
          else (LegacyCredits(body), sent)
    }
  }

  // ---------------------------------------------------------------------------
  // Properties

  /** An entry the legacy mapping turns into a record without raising. */
  predicate WellFormedLegacyEntry(m: Json)
  {
    && m.JObject? && "id" in m.fields && "name" in m.fields
    && ValidModelFields(m.fields["id"], m.fields["name"],
                        Get(m.fields, "context_length", JNull), Get(m.fields, "pricing", JNull))
  }

  /** Without a key both calls fail naming OPENROUTER_API_KEY and send nothing. */
  lemma LegacyKeyCheckedFirst(p: OpenRouterProvider, outcome: HttpOutcome)
    requires !HasKey(p.apiKey)
    ensures p.GetModels(outcome) == (Err(ValueError(KeyNotSet("OPENROUTER_API_KEY"))), None)
    ensures p.GetCredits(outcome) == (Err(ValueError(KeyNotSet("OPENROUTER_API_KEY"))), None)
  {
  }

  /** With a key, each call sends one request to its fixed URL carrying the key as Bearer token. */
  lemma LegacyRequests(p: OpenRouterProvider, outcome: HttpOutcome)
    requires HasKey(p.apiKey)
    ensures p.GetModels(outcome).1.Some? && p.GetCredits(outcome).1.Some?
    ensures p.GetModels(outcome).1.value.url == "https://openrouter.ai/api/v1/models"
    ensures p.GetCredits(outcome).1.value.url == "https://openrouter.ai/api/v1/credits"
    ensures BearerToken(p.GetModels(outcome).1.value.authorization) == p.apiKey
    ensures BearerToken(p.GetCredits(outcome).1.value.authorization) == p.apiKey
    ensures outcome.Response? && IsSuccess(outcome.status) ==>
              && p.GetModels(outcome).0 == LegacyModels(outcome.body)
              && p.GetCredits(outcome).0 == LegacyCredits(outcome.body)
    ensures outcome.Response? && IsSuccess(outcome.status) && outcome.body.JObject? && "data" in outcome.body.fields ==>
              p.GetCredits(outcome).0 == CreditsOf(outcome.body.fields["data"])
  {
    BearerRoundTrip(p.apiKey.value);
  }

  /** HTTP and transport failures reach the caller as httpx raised them, outside the LLMInfoError family. */
  lemma LegacyNoErrorMapping(p: OpenRouterProvider, outcome: HttpOutcome)
    requires HasKey(p.apiKey)
    requires outcome.TransportFailure? || !IsSuccess(outcome.status)
    ensures var e := if outcome.TransportFailure? then RequestError(outcome.cause) else HTTPStatusError(outcome.status);
            p.GetModels(outcome).0 == Err(e) && p.GetCredits(outcome).0 == Err(e) && !e.IsLLMInfoError()
  {
  }

  /**
   * The payload mapping: all or nothing, one record per entry in order, id,
   * name, context_length and pricing passed through, and `is_free` set
   * exactly when ":free" occurs in the id.
   */
  lemma LegacyEntriesMapping(body: Json)
    requires body.JObject? && "data" in body.fields && body.fields["data"].JArray?
    ensures var items := body.fields["data"].items;
            LegacyModels(body).Ok? <==> forall i :: 0 <= i < |items| ==> WellFormedLegacyEntry(items[i])
    ensures var items := body.fields["data"].items;
            var r := LegacyModels(body);
            r.Ok? ==> && |r.value| == |items|
                      && forall i :: 0 <= i < |items| ==>
                           && JStr(r.value[i].id) == items[i].fields["id"]
                           && JStr(r.value[i].name) == items[i].fields["name"]
                           && ContextLengthJson(r.value[i]) == Get(items[i].fields, "context_length", JNull)
                           && PricingJson(r.value[i]) == Get(items[i].fields, "pricing", JNull)
                           && (r.value[i].isFree <==> IsSubstring(FreeMarker, r.value[i].id))
  {
    var items := body.fields["data"].items;
    forall i | 0 <= i < |items|
      ensures LegacyEntry(items[i]).Ok? <==> WellFormedLegacyEntry(items[i])
    {
      if items[i].JObject? && "id" in items[i].fields && "name" in items[i].fields {
        var f := items[i].fields;
        if ValidModelFields(f["id"], f["name"], Get(f, "context_length", JNull), Get(f, "pricing", JNull)) {
          assert f["id"].JStr?;
        }
      }
    }
  }

  /**
   * Where the OpenRouter parser answers with an empty list or zero credits
   * for a body without `data`, the legacy provider fails with KeyError.
   */
  lemma LegacyStricterEnvelope(body: Json)
    requires body.JObject? && "data" !in body.fields
    ensures LegacyModels(body) == Err(KeyError("data")) && LegacyCredits(body) == Err(KeyError("data"))
    ensures ParseModels(OpenRouterParser, body) == Ok([])
    ensures ParseCredits(OpenRouterParser, body) == Ok(Some(CreditInfo(0.0, 0.0, 0.0)))
  {
  }

  /**
   * On a body with a `data` list the legacy mapping and the OpenRouter parser
   * succeed together and build the same records, except that the parser
   * leaves `is_free` false.
   */
  lemma LegacyAgreesWithParser(body: Json)
    requires body.JObject? && "data" in body.fields && body.fields["data"].JArray?
    ensures LegacyModels(body).Ok? <==> ParseModels(OpenRouterParser, body).Ok?
    ensures LegacyModels(body).Ok? ==>
              var a := LegacyModels(body).value;
              var b := ParseModels(OpenRouterParser, body).value;
              |a| == |b| && forall i :: 0 <= i < |a| ==> a[i] == b[i].(isFree := IsSubstring(FreeMarker, b[i].id))
  {
    LegacyEntriesMapping(body);
  }
}
