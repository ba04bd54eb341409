/**
 * llminfo_cli/providers/parsers.py: the two response-parsing strategies that
 * turn a decoded payload into ModelInfo records and a CreditInfo.
 * Python exceptions become `Err`; the payload is whatever `response.json()`
 * returned, so a payload that is not a mapping fails on `.get`.
 */
module Parsers {
  import opened Wrappers
  import opened JsonValues
  import opened Errors
  import opened Schemas
  import opened Collections

  /** The strategy, chosen by a provider's `parser` setting. */
  datatype ResponseParser =
    | OpenAICompatibleParser(modelPath: string, creditPath: Option<string>)
    | OpenRouterParser

  /** `OpenAICompatibleParser()` with its default arguments. */
  const DefaultOpenAICompatible: ResponseParser := OpenAICompatibleParser("data", None)

  function ParseModels(p: ResponseParser, response: Json): Result<seq<ModelInfo>, Exc>
  {
    match p
    case OpenAICompatibleParser(modelPath, _) => OpenAICompatibleModels(modelPath, response)
    case OpenRouterParser => OpenRouterModels(response)
  }

  function ParseCredits(p: ResponseParser, response: Json): Result<Option<CreditInfo>, Exc>
  {
    match p
    case OpenAICompatibleParser(_, creditPath) => OpenAICompatibleCredits(creditPath, response)
    case OpenRouterParser => OpenRouterCredits(response)
  }

  // ---------------------------------------------------------------------------
  // OpenAI-compatible strategy: lenient about the envelope

  /** The values an OpenAI-compatible list entry is read from. */
  function EntryId(m: map<string, Json>): Json
  {
    Get(m, "id", JStr(""))
  }

  /** An entry the OpenAI-compatible parser turns into a record without raising. */
  predicate WellFormedOpenAIEntry(m: Json)
  {
    m.JObject?
    && var id := EntryId(m.fields);
       ValidModelFields(id, id, Get(m.fields, "context_length", JNull), Get(m.fields, "pricing", JNull))
  }

  /** One list entry: `id` defaults to "", `name` is the `id` again, the rest pass through. */
  function OpenAIEntry(m: Json): Result<ModelInfo, Exc>
  {
    if !m.JObject? then Err(AttributeError)
    else
      var id := EntryId(m.fields);
      NewModelInfo(id, id, Get(m.fields, "context_length", JNull), Get(m.fields, "pricing", JNull), false)
  }

  /**
   * `parse_models`: the value under `modelPath` (default an empty list) is
   * read as a list of entries; any other value gives no models and no error.
   */
  function OpenAICompatibleModels(modelPath: string, response: Json): (r: Result<seq<ModelInfo>, Exc>)
    ensures !response.JObject? ==> r == Err(AttributeError)
    ensures response.JObject? && !Get(response.fields, modelPath, JArray([])).JArray? ==> r == Ok([])
    ensures response.JObject? && Get(response.fields, modelPath, JArray([])).JArray? ==>
              var items := Get(response.fields, modelPath, JArray([])).items;
              && (r.Ok? <==> forall i :: 0 <= i < |items| ==> WellFormedOpenAIEntry(items[i]))
              && (r.Ok? ==> && |r.value| == |items|
                            && forall i :: 0 <= i < |items| ==>
                                 && JStr(r.value[i].id) == EntryId(items[i].fields)
                                 && r.value[i].name == r.value[i].id
                                 && ContextLengthJson(r.value[i]) == Get(items[i].fields, "context_length", JNull)
                                 && PricingJson(r.value[i]) == Get(items[i].fields, "pricing", JNull)
                                 && !r.value[i].isFree)
  {
    if !response.JObject? then Err(AttributeError)
    else
      var data := Get(response.fields, modelPath, JArray([]));
      if data.JArray? then
        var r := MapAll(data.items, OpenAIEntry);
        assert forall i :: 0 <= i < |data.items| ==> (OpenAIEntry(data.items[i]).Ok? <==> WellFormedOpenAIEntry(data.items[i]));
        r
      else Ok([])
  }

  /** `parse_credits`: not implemented upstream; no input and no credit path gives anything but None. */
  function OpenAICompatibleCredits(creditPath: Option<string>, response: Json): (r: Result<Option<CreditInfo>, Exc>)
    ensures r == Ok(None)
  {
    if creditPath.None? || creditPath.value == "" then Ok(None) else Ok(None)
  }

  // ---------------------------------------------------------------------------
  // OpenRouter strategy: strict about each entry

  /** An entry the OpenRouter parser turns into a record without raising. */
  predicate WellFormedOpenRouterEntry(m: Json)
  {
    && m.JObject? && "id" in m.fields && "name" in m.fields
    && ValidModelFields(m.fields["id"], m.fields["name"],
                        Get(m.fields, "context_length", JNull), Get(m.fields, "pricing", JNull))
  }

  /** One entry: `m["id"]` and `m["name"]` are required, the rest pass through. */
  function OpenRouterEntry(m: Json, isFree: bool): Result<ModelInfo, Exc>
  {
    if !m.JObject? then Err(TypeError)  // a str, list or number does not take a string index
    else if "id" !in m.fields then Err(KeyError("id"))
    else if "name" !in m.fields then Err(KeyError("name"))
    else NewModelInfo(m.fields["id"], m.fields["name"],
                      Get(m.fields, "context_length", JNull), Get(m.fields, "pricing", JNull), isFree)
  }

  /**
   * `[entry(m) for m in data]` with Python's iteration rules: a list yields
   * its items; a string yields one-character strings and a mapping yields its
   * keys, and `m["id"]` on a string raises TypeError, so only an empty one
   * gets through; any other value is not iterable.
   */
  function EntriesOf(data: Json, entry: Json -> Result<ModelInfo, Exc>): Result<seq<ModelInfo>, Exc>
  {
    match data
    case JArray(items) => MapAll(items, entry)
    case JStr(s) => if s == "" then Ok([]) else Err(TypeError)
    case JObject(f) => if f == map[] then Ok([]) else Err(TypeError)
    case _ => Err(TypeError)
  }

  /**
   * `parse_models`: a missing `data` gives no models; otherwise every entry
   * needs `id` and `name`, and one bad entry fails the whole call.
   */
  function OpenRouterModels(response: Json): (r: Result<seq<ModelInfo>, Exc>)
    ensures !response.JObject? ==> r == Err(AttributeError)
    ensures response.JObject? && "data" !in response.fields ==> r == Ok([])
    ensures response.JObject? && "data" in response.fields && response.fields["data"].JArray? ==>
              var items := response.fields["data"].items;
              && (r.Ok? <==> forall i :: 0 <= i < |items| ==> WellFormedOpenRouterEntry(items[i]))
              && (r.Ok? ==> && |r.value| == |items|
                            && forall i :: 0 <= i < |items| ==>
                                 && JStr(r.value[i].id) == items[i].fields["id"]
                                 && JStr(r.value[i].name) == items[i].fields["name"]
                                 && ContextLengthJson(r.value[i]) == Get(items[i].fields, "context_length", JNull)
                                 && PricingJson(r.value[i]) == Get(items[i].fields, "pricing", JNull)
                                 && !r.value[i].isFree)
    ensures response.JObject? && "data" in response.fields && response.fields["data"].JArray? ==>
              var items := response.fields["data"].items;
              forall i :: 0 <= i < |items| && items[i].JObject? && "id" !in items[i].fields ==> r.Err?
    ensures response.JObject? && "data" in response.fields && !response.fields["data"].JArray? ==>
              r == (if response.fields["data"] in {JStr(""), JObject(map[])} then Ok([]) else Err(TypeError))
  {
    if !response.JObject? then Err(AttributeError)
    else
      var data := Get(response.fields, "data", JArray([]));
      assert data.JArray? ==> forall i :: 0 <= i < |data.items| ==>
        (OpenRouterEntry(data.items[i], false).Ok? <==> WellFormedOpenRouterEntry(data.items[i]));
      EntriesOf(data, m => OpenRouterEntry(m, false))
  }

  /**
   * The value an amount stands for in `total_credits - total_usage` and in a
   * float field: a number is itself and a bool is 1 or 0 (bool is an int
   * subclass, and pydantic's lax mode takes it for a float). Anything else
   * fails the subtraction.
   */
  function Amount(v: Json): Option<real>
  {
    match v
    case JNum(n) => Some(n)
    case JBool(b) => Some(if b then 1.0 else 0.0)
    case _ => None
  }

  /**
   * The credit arithmetic on the `data` mapping: missing amounts default to 0
   * and `remaining = total_credits - total_usage`, never clamped. Amounts that
   * are neither numbers nor booleans fail the subtraction.
   */
  function CreditsOf(data: Json): (r: Result<Option<CreditInfo>, Exc>)
    ensures !data.JObject? ==> r == Err(AttributeError)
    ensures r.Ok? ==> r.value.Some? && r.value.value.remaining == r.value.value.totalCredits - r.value.value.usage
    ensures r.Ok? ==> && ("total_credits" !in data.fields ==> r.value.value.totalCredits == 0.0)
                      && ("total_usage" !in data.fields ==> r.value.value.usage == 0.0)
    ensures r.Ok? ==> && ("total_credits" in data.fields ==> Amount(data.fields["total_credits"]) == Some(r.value.value.totalCredits))
                      && ("total_usage" in data.fields ==> Amount(data.fields["total_usage"]) == Some(r.value.value.usage))
    ensures data.JObject? ==> (r.Ok? <==> Amount(Get(data.fields, "total_credits", JNum(0.0))).Some?
                                          && Amount(Get(data.fields, "total_usage", JNum(0.0))).Some?)
    ensures r.Err? ==> r.error == AttributeError || r.error == TypeError
  {
    if !data.JObject? then Err(AttributeError)
    else
      var total := Amount(Get(data.fields, "total_credits", JNum(0.0)));
      var usage := Amount(Get(data.fields, "total_usage", JNum(0.0)));
      if total.Some? && usage.Some? then Ok(Some(CreditInfo(total.value, usage.value, total.value - usage.value)))
      else Err(TypeError)
  }

  /** `parse_credits`: a missing `data` counts as an empty mapping, i.e. zero credits and zero usage. */
  function OpenRouterCredits(response: Json): (r: Result<Option<CreditInfo>, Exc>)
    ensures !response.JObject? ==> r == Err(AttributeError)
    ensures response.JObject? && "data" !in response.fields ==> r == Ok(Some(CreditInfo(0.0, 0.0, 0.0)))
    ensures response.JObject? && "data" in response.fields ==> r == CreditsOf(response.fields["data"])
  {
    if !response.JObject? then Err(AttributeError)
    else CreditsOf(Get(response.fields, "data", JObject(map[])))
  }
}
