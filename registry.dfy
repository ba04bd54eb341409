/**
 * llminfo_cli/providers/__init__.py: providers looked up by name in the
 * bundled catalogue. The catalogue file is the parameter `file` (None when it
 * does not exist, otherwise the decoded YAML document). A provider is
 * returned as the settings GenericProvider is constructed with.
 */
module Registry {
  import opened Wrappers
  import opened JsonValues
  import opened Errors
  import opened Parsers
  import opened Generic
  import Validators

  /** `yaml.safe_load(f) or {}`, and `{}` for a missing file. */
  function LoadProviderConfig(file: Option<Json>): (c: Json)
    ensures file.Some? && Truthy(file.value) ==> c == file.value
    ensures !(file.Some? && Truthy(file.value)) ==> c == JObject(map[])
  {
    if file.Some? && Truthy(file.value) then file.value else JObject(map[])
  }

  /** `config.get("providers", {})`; a document that is not a mapping has no `get`. */
  function ProvidersSection(config: Json): Result<Json, Exc>
  {
    if config.JObject? then Ok(Get(config.fields, "providers", JObject(map[])))
    else Err(AttributeError)
  }

  /** `config.get("parser", "openai_compatible")` compared with the two known names. */
  function ParserOf(entry: map<string, Json>): (r: Result<ResponseParser, Exc>)
  {
    var t := Get(entry, "parser", JStr("openai_compatible"));
    if t == JStr("openai_compatible") then Ok(DefaultOpenAICompatible)
    else if t == JStr("openrouter") then Ok(OpenRouterParser)
    else Err(ValueError(UnknownParserType(t)))
  }

  /** `config.get("credits_endpoint")`: absent or null is None. */
  function CreditsEndpointOf(entry: map<string, Json>): Result<Option<string>, Exc>
  {
    match Get(entry, "credits_endpoint", JNull)
    case JNull => Ok(None)
    case JStr(s) => Ok(Some(s))
    case _ => Err(TypeError)
  }

  /** The four keys read with `config[...]`, in argument order. */
  const IndexedFields: seq<string> := ["name", "base_url", "api_key_env", "models_endpoint"]

  predicate StringValued(entry: map<string, Json>)
  {
    && "name" in entry && entry["name"].JStr?
    && "base_url" in entry && entry["base_url"].JStr?
    && "api_key_env" in entry && entry["api_key_env"].JStr?
    && "models_endpoint" in entry && entry["models_endpoint"].JStr?
  }

  /**
   * `_create_provider_from_config(name, config, api_key)` on a mapping: the
   * parser is chosen first, then the keyword arguments are read in order, so
   * the first absent key is the KeyError.
   */
  function BuildSettings(entry: map<string, Json>, apiKey: Option<string>): (r: Result<ProviderSettings, Exc>)
    ensures r.Ok? ==> && StringValued(entry) && r.value.apiKey == apiKey
                      && r.value.name == entry["name"].s && r.value.baseUrl == entry["base_url"].s
                      && r.value.apiKeyEnv == entry["api_key_env"].s
                      && r.value.modelsEndpoint == entry["models_endpoint"].s
    ensures r.Err? ==> || (r.error.ValueError? && r.error.problem.UnknownParserType?)
                       || (r.error.KeyError? && r.error.key in IndexedFields)
                       || r.error == TypeError
  {
    match ParserOf(entry)
    case Err(e) => Err(e)
    case Ok(parser) =>
      match Validators.FirstMissing(IndexedFields, entry)
      case Some(key) => Err(KeyError(key))
      case None =>
        if !StringValued(entry) then Err(TypeError)
        else
          match CreditsEndpointOf(entry)
          case Err(e) => Err(e)
          case Ok(credits) =>
            Ok(ProviderSettings(entry["name"].s, entry["base_url"].s, entry["api_key_env"].s,
                                entry["models_endpoint"].s, parser, apiKey, credits))
  }

  /** `_create_provider_from_config` on any entry: `config.get` needs a mapping. */
  function CreateProviderFromConfig(entry: Json, apiKey: Option<string>): Result<ProviderSettings, Exc>
  {
    if entry.JObject? then BuildSettings(entry.fields, apiKey) else Err(AttributeError)
  }

  /**
   * `get_provider(name, api_key)`: `name in providers_config`, then
   * `providers_config[name]`. On a list `in` compares items and on a string
   * it looks for a substring; indexing either by a string raises TypeError.
   */
  function GetProvider(file: Option<Json>, name: string, apiKey: Option<string>): (r: Result<ProviderSettings, Exc>)
    ensures r.Ok? ==> r.value.apiKey == apiKey
    ensures r.Ok? ==> var section := ProvidersSection(LoadProviderConfig(file));
                      section.Ok? && section.value.JObject? && name in section.value.fields
                      && section.value.fields[name].JObject?
    ensures r.Err? ==> || r.error == ValueError(UnknownProvider(name)) || r.error == TypeError
                       || r.error == AttributeError || r.error.KeyError?
                       || (r.error.ValueError? && r.error.problem.UnknownParserType?)
  {
    match ProvidersSection(LoadProviderConfig(file))
    case Err(e) => Err(e)
    case Ok(section) =>
      match section
      case JObject(f) =>
        if name !in f then Err(ValueError(UnknownProvider(name))) else CreateProviderFromConfig(f[name], apiKey)
      case JArray(items) =>
        if JStr(name) in items then Err(TypeError) else Err(ValueError(UnknownProvider(name)))
      case JStr(s) =>
        if IsSubstring(name, s) then Err(TypeError) else Err(ValueError(UnknownProvider(name)))
      case _ => Err(TypeError)
  }

  /** Every provider the catalogue can build, keyed as in the catalogue. */
  predicate AllBuild(f: map<string, Json>)
  {
    forall n :: n in f ==> CreateProviderFromConfig(f[n], None).Ok?
  }

  /**
   * `get_providers()`: one provider per catalogue key, none with an API key
   * override. The dictionary order is not kept, so when several entries fail
   * the error is that of one of them.
   */
  method GetProviders(file: Option<Json>) returns (r: Result<map<string, ProviderSettings>, Exc>)
    ensures file.None? ==> r == Ok(map[])
    ensures ProvidersSection(LoadProviderConfig(file)).Err? ==> r == Err(AttributeError)
    ensures ProvidersSection(LoadProviderConfig(file)).Ok? && !ProvidersSection(LoadProviderConfig(file)).value.JObject? ==>
              r == Err(AttributeError)
    ensures var section := ProvidersSection(LoadProviderConfig(file));
            section.Ok? && section.value.JObject? ==>
              && (r.Ok? <==> AllBuild(section.value.fields))
              && (r.Ok? ==> r.value.Keys == section.value.fields.Keys)
              && (r.Ok? ==> forall n :: n in r.value ==> CreateProviderFromConfig(section.value.fields[n], None) == Ok(r.value[n]))
              && (r.Err? ==> exists n :: n in section.value.fields && CreateProviderFromConfig(section.value.fields[n], None) == Err(r.error))
  {
    var section := ProvidersSection(LoadProviderConfig(file));
    if section.Err? || !section.value.JObject? {
      // `.items()` exists on mappings only
      return Err(AttributeError);
    }
    var f := section.value.fields;
    var providers: map<string, ProviderSettings> := map[];
    var remaining := f.Keys;
    while remaining != {}
      invariant remaining <= f.Keys
      invariant providers.Keys == f.Keys - remaining
      invariant forall n :: n in providers ==> CreateProviderFromConfig(f[n], None) == Ok(providers[n])
      decreases |remaining|
    {
      var n :| n in remaining;
      var built := CreateProviderFromConfig(f[n], None);
      if built.Err? {
        return Err(built.error);
      }
      providers := providers[n := built.value];
      remaining := remaining - {n};
    }
    r := Ok(providers);
  }

  // ---------------------------------------------------------------------------
  // Properties

  /**
   * The parser is decided before any key is read: "openai_compatible" when
   * the entry names none, "openrouter" selects the OpenRouter parser, and
   * any other value fails naming it. Then the first of name, base_url,
   * api_key_env, models_endpoint that is absent is the KeyError. A built
   * provider carries the entry's values, the given key and a credits
   * endpoint that is None exactly when the entry's is absent or null.
   */
  lemma BuildSettingsProperties(entry: map<string, Json>, apiKey: Option<string>)
    ensures "parser" !in entry ==> ParserOf(entry) == Ok(DefaultOpenAICompatible)
    ensures Get(entry, "parser", JNull) == JStr("openrouter") ==> ParserOf(entry) == Ok(OpenRouterParser)
    ensures ParserOf(entry).Err? <==>
              Get(entry, "parser", JStr("openai_compatible")) !in {JStr("openai_compatible"), JStr("openrouter")}
    ensures ParserOf(entry).Err? ==>
              BuildSettings(entry, apiKey) == Err(ValueError(UnknownParserType(entry["parser"])))
    ensures ParserOf(entry).Ok? ==>
              forall i :: 0 <= i < |IndexedFields| && IndexedFields[i] !in entry &&
                          (forall j :: 0 <= j < i ==> IndexedFields[j] in entry) ==>
                BuildSettings(entry, apiKey) == Err(KeyError(IndexedFields[i]))
    ensures BuildSettings(entry, apiKey).Ok? ==> StringValued(entry)
    ensures BuildSettings(entry, apiKey).Ok? && StringValued(entry) ==>
              var p := BuildSettings(entry, apiKey).value;
              && entry["name"] == JStr(p.name) && entry["base_url"] == JStr(p.baseUrl)
              && entry["api_key_env"] == JStr(p.apiKeyEnv) && entry["models_endpoint"] == JStr(p.modelsEndpoint)
              && p.apiKey == apiKey && Ok(p.parser) == ParserOf(entry)
              && (p.creditsEndpoint.None? <==> Get(entry, "credits_endpoint", JNull) == JNull)
              && (p.creditsEndpoint.Some? ==> entry["credits_endpoint"] == JStr(p.creditsEndpoint.value))
  {
    if ParserOf(entry).Ok? {
      forall i | 0 <= i < |IndexedFields| && IndexedFields[i] !in entry &&
                 (forall j :: 0 <= j < i ==> IndexedFields[j] in entry)
        ensures BuildSettings(entry, apiKey) == Err(KeyError(IndexedFields[i]))
      {
        var m := Validators.FirstMissing(IndexedFields, entry);
        assert m.Some?;
        var k :| 0 <= k < |IndexedFields| && IndexedFields[k] == m.value && m.value !in entry;
        FirstMissingIsFirst(entry, i, k);
      }
    }
  }

  lemma FirstMissingIsFirst(entry: map<string, Json>, i: nat, k: nat)
    requires i < |IndexedFields| && IndexedFields[i] !in entry
    requires forall j :: 0 <= j < i ==> IndexedFields[j] in entry
    requires k < |IndexedFields| && IndexedFields[k] == Validators.FirstMissing(IndexedFields, entry).value
    ensures Validators.FirstMissing(IndexedFields, entry) == Some(IndexedFields[i])
  {
    var f := IndexedFields;
    assert f[1..] == ["base_url", "api_key_env", "models_endpoint"];
    assert f[2..] == ["api_key_env", "models_endpoint"];
    assert f[3..] == ["models_endpoint"];
  }

  /** A plugin configuration the validator accepts always builds, with the parser it names. */
  lemma ValidatedConfigBuilds(config: map<string, Json>, apiKey: Option<string>)
    requires Validators.ValidConfig(config)
    ensures BuildSettings(config, apiKey).Ok?
    ensures config["parser"] == JStr("openrouter") ==> BuildSettings(config, apiKey).value.parser == OpenRouterParser
    ensures config["parser"] == JStr("openai_compatible") ==>
              BuildSettings(config, apiKey).value.parser == DefaultOpenAICompatible
  {
    Validators.NoneMissingIffAllPresent(config);
    assert Validators.FirstMissing(IndexedFields, config).None?;
  }

  /**
   * With a catalogue whose providers section is a mapping, `get_provider`
   * fails with "Unknown provider" exactly when the name is not a key; a
   * provider found takes its name from the entry's `name` field and the API
   * key from the argument.
   */
  lemma GetProviderLookup(file: Option<Json>, name: string, apiKey: Option<string>)
    requires ProvidersSection(LoadProviderConfig(file)).Ok?
    requires ProvidersSection(LoadProviderConfig(file)).value.JObject?
    ensures var f := ProvidersSection(LoadProviderConfig(file)).value.fields;
            GetProvider(file, name, apiKey) == Err(ValueError(UnknownProvider(name))) <==> name !in f
    ensures var f := ProvidersSection(LoadProviderConfig(file)).value.fields;
            GetProvider(file, name, apiKey).Ok? ==>
              && name in f && f[name].JObject? && "name" in f[name].fields
              && f[name].fields["name"] == JStr(GetProvider(file, name, apiKey).value.name)
              && GetProvider(file, name, apiKey).value.apiKey == apiKey
  {
    var f := ProvidersSection(LoadProviderConfig(file)).value.fields;
    if name in f && f[name].JObject? {
      BuildSettingsProperties(f[name].fields, apiKey);
    }
  }

  /** A missing catalogue, or one without providers, knows no provider. */
  lemma EmptyCatalogueKnowsNothing(file: Option<Json>, name: string, apiKey: Option<string>)
    requires file.None? || (file.value.JObject? && "providers" !in file.value.fields)
    ensures GetProvider(file, name, apiKey) == Err(ValueError(UnknownProvider(name)))
  {
  }
}
