/**
 * The records of llminfo_cli/schemas.py and the pydantic validation that
 * builds them from decoded values.
 */
module Schemas {
  import opened Wrappers
  import opened JsonValues
  import opened Errors

  /**
   * A model as the rest of the program uses it. `isFree` is the flag that
   * models.py reads and providers/openrouter.py sets; parsers.py never sets
   * it, so there it keeps its default, false.
   */
  datatype ModelInfo = ModelInfo(
    id: string,
    name: string,
    contextLength: Option<int>,
    pricing: Option<map<string, Json>>,
    isFree: bool)

  /** The record schemas.py declares: the same fields without `is_free`. */
  datatype SchemaModelInfo = SchemaModelInfo(
    id: string,
    name: string,
    contextLength: Option<int>,
    pricing: Option<map<string, Json>>)

  datatype CreditInfo = CreditInfo(totalCredits: real, usage: real, remaining: real)

  /** Integral numbers are what an `int | None` field accepts besides null. */
  predicate IsIntegral(n: real)
  {
    n.Floor as real == n
  }

  /** The decoded value a `context_length` field was read from, or JNull when there is none. */
  function ContextLengthJson(m: ModelInfo): Json
  {
    match m.contextLength
    case None => JNull
    case Some(n) => JNum(n as real)
  }

  /** The decoded value a `pricing` field was read from, or JNull when there is none. */
  function PricingJson(m: ModelInfo): Json
  {
    match m.pricing
    case None => JNull
    case Some(p) => JObject(p)
  }

  /** The values a ModelInfo accepts: str, str, int or None, dict or None. */
  predicate ValidModelFields(id: Json, name: Json, contextLength: Json, pricing: Json)
  {
    && id.JStr?
    && name.JStr?
    && (contextLength.JNull? || (contextLength.JNum? && IsIntegral(contextLength.n)))
    && (pricing.JNull? || pricing.JObject?)
  }

  /**
   * `ModelInfo(id=..., name=..., context_length=..., pricing=...)`: pydantic
   * either builds the record, keeping every value, or raises ValidationError.
   */
  function NewModelInfo(id: Json, name: Json, contextLength: Json, pricing: Json, isFree: bool): (r: Result<ModelInfo, Exc>)
    ensures r.Ok? <==> ValidModelFields(id, name, contextLength, pricing)
    ensures r.Err? ==> r.error == ValidationError
    ensures r.Ok? ==> && JStr(r.value.id) == id && JStr(r.value.name) == name
                      && ContextLengthJson(r.value) == contextLength
                      && PricingJson(r.value) == pricing
                      && r.value.isFree == isFree
  {
    if !ValidModelFields(id, name, contextLength, pricing) then Err(ValidationError)
    else
      var ctx := if contextLength.JNull? then None else Some(contextLength.n.Floor);
      var price := if pricing.JNull? then None else Some(pricing.fields);
      Ok(ModelInfo(id.s, name.s, ctx, price, isFree))
  }
}
