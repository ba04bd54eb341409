/**
 * llminfo_cli/validators.py: `validate_provider_config`, an ordered chain of
 * checks on a plugin configuration. The first check that fails decides the
 * message; a configuration that passes them all gives (true, "").
 */
module Validators {
  import opened Wrappers
  import opened JsonValues

  const RequiredFields: seq<string> := ["name", "base_url", "api_key_env", "models_endpoint", "parser"]

  const MissingFieldPrefix: string := "Missing required field: "
  const BadName: string := "Invalid or missing 'name' field"
  const BadBaseUrl: string := "Invalid or missing 'base_url' field"
  const BadScheme: string := "Invalid base_url: must start with http:// or https://"
  const BadApiKeyEnv: string := "Invalid or missing 'api_key_env' field"
  const NotUppercase: string := "api_key_env should be uppercase"
  const BadModelsEndpoint: string := "Invalid or missing 'models_endpoint' field"
  const BadParser: string := "Invalid parser: must be one of ['openai_compatible', 'openrouter']"
  const BadCreditsEndpoint: string := "Invalid 'credits_endpoint': must be a string or null"

  /** The first of `fields` that `config` lacks, scanning in order. */
  function FirstMissing(fields: seq<string>, config: map<string, Json>): (r: Option<string>)
    ensures r.None? <==> forall i :: 0 <= i < |fields| ==> fields[i] in config
    ensures r.Some? ==> exists i :: 0 <= i < |fields| && fields[i] == r.value && r.value !in config
                                    && forall j :: 0 <= j < i ==> fields[j] in config
  {
    if fields == [] then None
    else if fields[0] !in config then Some(fields[0])
    else
      var rest := FirstMissing(fields[1..], config);
      assert forall j :: 0 < j < |fields| ==> fields[j] == fields[1..][j - 1];
      rest
  }

  /** Every required field is a key of `config`. */
  predicate HasRequiredFields(config: map<string, Json>)
  {
    "name" in config && "base_url" in config && "api_key_env" in config
    && "models_endpoint" in config && "parser" in config
  }

  /** The scan over the required-field list finds nothing exactly when every field is present. */
  lemma NoneMissingIffAllPresent(config: map<string, Json>)
    ensures FirstMissing(RequiredFields, config).None? <==> HasRequiredFields(config)
  {
    var fs := RequiredFields;
    assert fs[0] == "name" && fs[1] == "base_url" && fs[2] == "api_key_env";
    assert fs[3] == "models_endpoint" && fs[4] == "parser";
  }

  /** `s.startswith(("http://", "https://"))` */
  predicate HasHttpScheme(s: string)
  {
    "http://" <= s || "https://" <= s
  }

  predicate IsLowerChar(c: char) { 'a' <= c <= 'z' }
  predicate IsUpperChar(c: char) { 'A' <= c <= 'Z' }

  /** `s.isupper()`: at least one cased character and no lower-case one. */
  predicate IsUpper(s: string)
  {
    (exists i :: 0 <= i < |s| && IsUpperChar(s[i])) && forall i :: 0 <= i < |s| ==> !IsLowerChar(s[i])
  }

  /** The two parser names a plugin may ask for. */
  predicate KnownParser(v: Json)
  {
    v == JStr("openai_compatible") || v == JStr("openrouter")
  }

  /** `credits_endpoint` is absent, null, or a string. */
  predicate CreditsEndpointAcceptable(config: map<string, Json>)
  {
    "credits_endpoint" !in config || config["credits_endpoint"].JNull? || config["credits_endpoint"].JStr?
  }

  /** What a valid plugin configuration is, stated as one conjunction. */
  predicate ValidConfig(config: map<string, Json>)
  {
    && HasRequiredFields(config)
    && "name" in config && NonEmptyString(config["name"])
    && "base_url" in config && NonEmptyString(config["base_url"]) && HasHttpScheme(config["base_url"].s)
    && "api_key_env" in config && NonEmptyString(config["api_key_env"]) && IsUpper(config["api_key_env"].s)
    && "models_endpoint" in config && NonEmptyString(config["models_endpoint"])
    && "parser" in config && KnownParser(config["parser"])
    && CreditsEndpointAcceptable(config)
  }

  /** `validate_provider_config(config)`: returns (is_valid, error_message). */
  function ValidateProviderConfig(config: map<string, Json>): (r: (bool, string))
    ensures r.0 <==> ValidConfig(config)
    ensures r.0 ==> r.1 == ""
    ensures !r.0 ==> r.1 != ""
  {
    NoneMissingIffAllPresent(config);
    match FirstMissing(RequiredFields, config)
    case Some(field) => (false, MissingFieldPrefix + field)
    case None =>
      if !NonEmptyString(config["name"]) then (false, BadName)
      else if !NonEmptyString(config["base_url"]) then (false, BadBaseUrl)
      else if !HasHttpScheme(config["base_url"].s) then (false, BadScheme)
      else if !NonEmptyString(config["api_key_env"]) then (false, BadApiKeyEnv)
      else if !IsUpper(config["api_key_env"].s) then (false, NotUppercase)
      else if !NonEmptyString(config["models_endpoint"]) then (false, BadModelsEndpoint)
      else if !KnownParser(config["parser"]) then (false, BadParser)
      else if !CreditsEndpointAcceptable(config) then (false, BadCreditsEndpoint)
      else (true, "")
  }

  /** Required fields come first: the first one missing, in declaration order, is the one reported. */
  lemma MissingFieldReportedFirst(config: map<string, Json>, i: nat)
    requires i < |RequiredFields| && RequiredFields[i] !in config
    requires forall j :: 0 <= j < i ==> RequiredFields[j] in config
    ensures ValidateProviderConfig(config) == (false, MissingFieldPrefix + RequiredFields[i])
  {
    var m := FirstMissing(RequiredFields, config);
    var k :| 0 <= k < |RequiredFields| && RequiredFields[k] == m.value && m.value !in config
             && forall j :: 0 <= j < k ==> RequiredFields[j] in config;
    assert k == i;
  }

  /** Only the checks before it matter: a bad scheme is reported whatever the later fields hold. */
  lemma SchemeCheckedBeforeLaterFields(config: map<string, Json>)
    requires HasRequiredFields(config)
    requires NonEmptyString(config["name"]) && NonEmptyString(config["base_url"])
    requires !HasHttpScheme(config["base_url"].s)
    ensures ValidateProviderConfig(config) == (false, BadScheme)
  {
  }

  /** A lower-case environment variable name is rejected with the upper-case message once the fields before it pass. */
  lemma LowercaseApiKeyEnvRejected(config: map<string, Json>)
    requires HasRequiredFields(config)
    requires NonEmptyString(config["name"]) && NonEmptyString(config["base_url"]) && HasHttpScheme(config["base_url"].s)
    requires NonEmptyString(config["api_key_env"])
    requires exists i :: 0 <= i < |config["api_key_env"].s| && IsLowerChar(config["api_key_env"].s[i])
    ensures ValidateProviderConfig(config) == (false, NotUppercase)
  {
  }
}
