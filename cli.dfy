/**
 * llminfo_cli/main.py: the command helpers. Plugin and catalogue files are
 * maps from path to decoded document; what the commands print is reduced to
 * the classification of the error and the exit code.
 */
module Cli {
  import opened Wrappers
  import opened JsonValues
  import opened Errors
  import opened Schemas
  import opened Cache
  import opened Generic
  import Validators
  import Registry

  // ---------------------------------------------------------------------------
  // create_provider_from_config

  /**
   * `create_provider_from_config(config, api_key)`: the same steps as the
   * registry's builder, on the plugin mapping.
   */
  function CreateProviderFromConfig(config: map<string, Json>, apiKey: Option<string>): (r: Result<ProviderSettings, Exc>)
    ensures r == Registry.BuildSettings(config, apiKey)
    ensures Get(config, "parser", JStr("openai_compatible")) !in {JStr("openai_compatible"), JStr("openrouter")} ==>
              r == Err(ValueError(UnknownParserType(config["parser"])))
    ensures Validators.ValidConfig(config) ==> r.Ok?
  {
    Registry.BuildSettingsProperties(config, apiKey);
    if Validators.ValidConfig(config) then
      Registry.ValidatedConfigBuilds(config, apiKey);
      Registry.BuildSettings(config, apiKey)
    else Registry.BuildSettings(config, apiKey)
  }

  // ---------------------------------------------------------------------------
  // load_and_validate_config

  /** Python's `field in doc` for the document kinds that support it. */
  function PresentIn(field: string, doc: Json): bool
    requires doc.JArray? || doc.JStr?
  {
    if doc.JArray? then JStr(field) in doc.items else IsSubstring(field, doc.s)
  }

  /** The first required field `in` reports absent from a list or string document. */
  function FirstAbsent(fields: seq<string>, doc: Json): (r: Option<string>)
    requires doc.JArray? || doc.JStr?
    ensures r.Some? ==> r.value in fields && !PresentIn(r.value, doc)
    ensures r.None? <==> forall i :: 0 <= i < |fields| ==> PresentIn(fields[i], doc)
    ensures r.Some? ==> exists k :: 0 <= k < |fields| && fields[k] == r.value && !PresentIn(fields[k], doc)
                                    && forall j :: 0 <= j < k ==> PresentIn(fields[j], doc)
  {
    if fields == [] then None
    else if !PresentIn(fields[0], doc) then Some(fields[0])
    else
      var rest := FirstAbsent(fields[1..], doc);
      assert forall j :: 0 < j < |fields| ==> fields[j] == fields[1..][j - 1];
      rest
  }

  /**
   * `validate_provider_config(doc)` on whatever YAML produced: a mapping is
   * checked as such; on a list or a string the required-field loop uses `in`
   * and then `config.get` fails; anything else is not iterable.
   */
  function ValidateDocument(doc: Json): (r: Result<(bool, string), Exc>)
    ensures doc.JObject? ==> r == Ok(Validators.ValidateProviderConfig(doc.fields))
    ensures r.Ok? && r.value.0 ==> doc.JObject?
  {
    match doc
    case JObject(f) => Ok(Validators.ValidateProviderConfig(f))
    case JArray(_) =>
      (match FirstAbsent(Validators.RequiredFields, doc)
       case Some(f) => Ok((false, Validators.MissingFieldPrefix + f))
       case None => Err(AttributeError))
    case JStr(_) =>
      (match FirstAbsent(Validators.RequiredFields, doc)
       case Some(f) => Ok((false, Validators.MissingFieldPrefix + f))
       case None => Err(AttributeError))
    case _ => Err(TypeError)
  }

  /** `load_and_validate_config(path)`: existence first, then validation of the loaded document. */
  function LoadAndValidateConfig(path: string, files: map<string, Json>): (r: Result<map<string, Json>, Exc>)
    ensures path !in files ==> r == Err(ValueError(PluginFileNotFound(path)))
    ensures r.Ok? ==> path in files && files[path] == JObject(r.value) && Validators.ValidConfig(r.value)
    ensures path in files && files[path].JObject? ==>
              && (r.Ok? <==> Validators.ValidConfig(files[path].fields))
              && (r.Err? ==> r == Err(ValueError(InvalidPluginConfig(Validators.ValidateProviderConfig(files[path].fields).1))))
              && (r.Err? ==> r.error.problem.reason != "")
  {
    if path !in files then Err(ValueError(PluginFileNotFound(path)))
    else
      match ValidateDocument(files[path])
      case Err(e) => Err(e)
      case Ok((valid, message)) =>
        if !valid then Err(ValueError(InvalidPluginConfig(message)))
        else Ok(files[path].fields)
  }

  // ---------------------------------------------------------------------------
  // handle_command_error

  /** Which report `handle_command_error` prints. */
  datatype Diagnosis =
    | ValueErrorReport
    | AuthenticationFailed(providerHint: Option<string>)  // the provider and the variable to set, when a provider is known
    | RateLimited
    | ResourceNotFound
    | ServerError(status: int)
    | OtherApiError(code: Option<int>)
    | NetworkProblem
    | UnexpectedError

  /** `str.upper()` restricted to ASCII: a-z become A-Z, every other character is kept. */
  function AsciiUpper(s: string): (u: string)
    ensures |u| == |s|
    ensures forall i :: 0 <= i < |s| ==> u[i] == (if 'a' <= s[i] <= 'z' then (s[i] as int - 32) as char else s[i])
  {
    if s == [] then [] else
      var c := s[0];
      [if 'a' <= c <= 'z' then (c as int - 32) as char else c] + AsciiUpper(s[1..])
  }

  /** `error.provider.upper() + "_API_KEY"` */
  function ApiKeyHint(provider: string): string
  {
    AsciiUpper(provider) + "_API_KEY"
  }

  /** `handle_command_error(error, command)`: the report chosen, and the exit code. */
  function HandleCommandError(e: Exc): (r: (int, Diagnosis))
    ensures r.0 == 1
    ensures e.IsValueError() <==> r.1 == ValueErrorReport
    ensures r.1.NetworkProblem? <==> e.NetworkError?
    ensures r.1.UnexpectedError? <==> !e.IsValueError() && !e.IsAPIError() && !e.NetworkError?
    ensures e.IsAPIError() && e.StatusCode() == Some(401) ==>
              r.1 == AuthenticationFailed(if e.provider.Some? && e.provider.value != "" then Some(ApiKeyHint(e.provider.value)) else None)
  {
    var d :=
      if e.IsValueError() then ValueErrorReport
      else if e.IsAPIError() then
        var code := e.StatusCode();
        if code == Some(401) then
          AuthenticationFailed(if e.provider.Some? && e.provider.value != "" then Some(ApiKeyHint(e.provider.value)) else None)
        else if code == Some(429) then RateLimited
        else if code == Some(404) then ResourceNotFound
        else if code.Some? && code.value >= 500 then ServerError(code.value)
        else OtherApiError(code)
      else if e.NetworkError? then NetworkProblem
      else UnexpectedError;
    (1, d)
  }

  /**
   * The errors a provider maps from HTTP statuses are reported by status: 401
   * with the provider's key variable, 429, 404, 5xx, and the rest with their code.
   */
  lemma StatusErrorsReported(status: nat, provider: string)
    requires provider != ""
    ensures var d := HandleCommandError(MapHttpStatus(status, provider)).1;
            && (status == 401 ==> d == AuthenticationFailed(Some(ApiKeyHint(provider))))
            && (status == 429 ==> d == RateLimited)
            && (status == 404 ==> d == ResourceNotFound)
            && (status >= 500 ==> d == ServerError(status))
            && (status !in {401, 429, 404} && status < 500 ==> d == OtherApiError(Some(status)))
  {
  }

  /**
   * A transport failure is a network problem, a missing key a value error,
   * and the legacy provider's unmapped httpx errors are unexpected.
   */
  lemma OtherProviderErrorsReported(s: ProviderSettings, cause: string, status: nat)
    ensures HandleCommandError(MapTransport(cause, s.name)).1 == NetworkProblem
    ensures HandleCommandError(MissingKey(s)).1 == ValueErrorReport
    ensures HandleCommandError(HTTPStatusError(status)).1 == UnexpectedError
    ensures HandleCommandError(RequestError(cause)).1 == UnexpectedError
    ensures HandleCommandError(NewConfigurationError(cause)).1 == UnexpectedError
  {
  }

  // ---------------------------------------------------------------------------
  // import_provider: the catalogue update

  /**
   * The user catalogue after `user_config.setdefault("providers", {})[name] = config`,
   * starting from `yaml.safe_load(f) or {}`, or from `{"providers": {}}` when
   * there is no file.
   */
  function Merged(userFile: Option<Json>, config: map<string, Json>, name: string): Result<Json, Exc>
  {
    var user := if userFile.None? then JObject(map["providers" := JObject(map[])])
                else if Truthy(userFile.value) then userFile.value
                else JObject(map[]);
    if !user.JObject? then Err(AttributeError)  // only a mapping has setdefault
    else
      var providers := Get(user.fields, "providers", JObject(map[]));
      if !providers.JObject? then Err(TypeError)  // item assignment on a list, string, number or None
      else Ok(JObject(user.fields["providers" := JObject(providers.fields[name := JObject(config)])]))
  }

  /** The update of `import_provider`, step by step on the loaded document. */
  method MergeImported(userFile: Option<Json>, config: map<string, Json>, name: string) returns (r: Result<Json, Exc>)
    ensures r == Merged(userFile, config, name)
  {
    var user: Json;
    if userFile.Some? {
      user := if Truthy(userFile.value) then userFile.value else JObject(map[]);
    } else {
      user := JObject(map["providers" := JObject(map[])]);
    }
    if !user.JObject? {
      return Err(AttributeError);
    }
    var fields := user.fields;
    if "providers" !in fields {
      fields := fields["providers" := JObject(map[])];
    }
    var providers := fields["providers"];
    if !providers.JObject? {
      return Err(TypeError);
    }
    fields := fields["providers" := JObject(providers.fields[name := JObject(config)])];
    assert fields == user.fields["providers" := JObject(providers.fields[name := JObject(config)])];
    r := Ok(JObject(fields));
  }

  /**
   * The merge sets `providers[name]` to the plugin configuration and keeps
   * every other provider and every other top-level key; a missing or empty
   * file gives a catalogue with that one provider.
   */
  lemma MergeUpdatesOneEntry(userFile: Option<Json>, config: map<string, Json>, name: string)
    ensures userFile.None? || !Truthy(userFile.value) ==>
              Merged(userFile, config, name) == Ok(JObject(map["providers" := JObject(map[name := JObject(config)])]))
    ensures userFile.Some? && Truthy(userFile.value) && !userFile.value.JObject? ==>
              Merged(userFile, config, name) == Err(AttributeError)
    ensures Merged(userFile, config, name).Ok? ==>
              var before := if userFile.Some? && Truthy(userFile.value) then userFile.value.fields else map[];
              var after := Merged(userFile, config, name).value;
              && after.JObject? && "providers" in after.fields && after.fields["providers"].JObject?
              && after.fields["providers"].fields.Keys == Get(before, "providers", JObject(map[])).fields.Keys + {name}
              && after.fields["providers"].fields[name] == JObject(config)
              && (forall k :: k in Get(before, "providers", JObject(map[])).fields && k != name ==>
                    after.fields["providers"].fields[k] == before["providers"].fields[k])
              && (forall k :: k in before && k != "providers" ==> k in after.fields && after.fields[k] == before[k])
  {
    if userFile.None? {
      assert map["providers" := JObject(map[])]["providers" := JObject(map[name := JObject(config)])]
          == map["providers" := JObject(map[name := JObject(config)])];
    } else if !Truthy(userFile.value) {
      assert map[]["providers" := JObject(map[name := JObject(config)])]
          == map["providers" := JObject(map[name := JObject(config)])];
    }
  }

  /**
   * A validated plugin written into the catalogue is found under its name,
   * and the provider built from the catalogue is the one the plugin describes.
   * The program itself never composes the two steps: `get_provider` reads only
   * the bundled catalogue, not the user file `import-provider` writes. This
   * states what that lookup would give if the written catalogue were read.
   */
  lemma ImportedProviderResolves(userFile: Option<Json>, config: map<string, Json>, apiKey: Option<string>)
    requires Validators.ValidConfig(config)
    requires Merged(userFile, config, config["name"].s).Ok?
    ensures Registry.GetProvider(Some(Merged(userFile, config, config["name"].s).value), config["name"].s, apiKey)
            == CreateProviderFromConfig(config, apiKey)
    ensures CreateProviderFromConfig(config, apiKey).Ok?
  {
    var doc := Merged(userFile, config, config["name"].s).value;
    assert "providers" in doc.fields;
    assert Truthy(doc);
  }

  // ---------------------------------------------------------------------------
  // list models

  /** `[(provider_name, m) for m in models]` */
  function Tagged(name: string, models: seq<ModelInfo>): (t: seq<(string, ModelInfo)>)
    ensures |t| == |models|
    ensures forall i :: 0 <= i < |t| ==> t[i] == (name, models[i])
  {
    seq(|models|, i requires 0 <= i < |models| => (name, models[i]))
  }

  /** What listing every provider in turn does, with one cache directory shared by all. */
  datatype Listing = Listing(result: Result<seq<(string, ModelInfo)>, Exc>, files: map<string, CacheFile>)

  /** Providers are asked in order with `use_cache = not force`; the first failure ends the command. */
  function ListFlow(ps: seq<(ProviderSettings, Option<string>)>, files: map<string, CacheFile>,
                    force: bool, now: int, outcomes: seq<HttpOutcome>): Listing
    requires |outcomes| == |ps|
  {
    if ps == [] then Listing(Ok([]), files)
    else
      var n := |ps| - 1;
      var prev := ListFlow(ps[..n], files, force, now, outcomes[..n]);
      if prev.result.Err? then prev
      else
        var call := ModelsFlow(ps[n].0, ps[n].1, prev.files, !force, now, outcomes[n]);
        match call.result
        case Err(e) => Listing(Err(e), call.files)
        case Ok(models) => Listing(Ok(prev.result.value + Tagged(ps[n].0.name, models)), call.files)
  }

  /**
   * With `--force` the listing does not depend on what the cache held: every
   * provider is asked over HTTP.
   */
  lemma {:induction false} ForcedListingIgnoresCache(ps: seq<(ProviderSettings, Option<string>)>,
                                                     files1: map<string, CacheFile>, files2: map<string, CacheFile>,
                                                     now: int, outcomes: seq<HttpOutcome>)
    requires |outcomes| == |ps|
    ensures ListFlow(ps, files1, true, now, outcomes).result == ListFlow(ps, files2, true, now, outcomes).result
  {
    if ps != [] {
      var n := |ps| - 1;
      ForcedListingIgnoresCache(ps[..n], files1, files2, now, outcomes[..n]);
    }
  }

  function Configured(providers: seq<GenericProvider>): (ps: seq<(ProviderSettings, Option<string>)>)
    ensures |ps| == |providers|
    ensures forall i :: 0 <= i < |ps| ==> ps[i] == (providers[i].settings, providers[i].apiKey)
  {
    seq(|providers|, i requires 0 <= i < |providers| => (providers[i].settings, providers[i].apiKey))
  }

  /**
   * `list models` over all providers: each is asked in turn with
   * `use_cache = not force`, and its models are tagged with its name.
   */
  method ListModels(providers: seq<GenericProvider>, cache: CacheManager, force: bool, now: int,
                    outcomes: seq<HttpOutcome>) returns (r: Result<seq<(string, ModelInfo)>, Exc>)
    requires |outcomes| == |providers|
    requires forall i :: 0 <= i < |providers| ==> providers[i].cache == cache
    modifies cache
    ensures var l := ListFlow(Configured(providers), old(cache.files), force, now, outcomes);
            r == l.result && cache.files == l.files
  {
    var ps := Configured(providers);
    var listed: seq<(string, ModelInfo)> := [];
    var i := 0;
    while i < |providers|
      invariant 0 <= i <= |providers|
      invariant ListFlow(ps[..i], old(cache.files), force, now, outcomes[..i]) == Listing(Ok(listed), cache.files)
    {
      var models, _ := providers[i].GetModels(!force, now, outcomes[i]);
      ListFlowStep(ps, old(cache.files), force, now, outcomes, i);
      if models.Err? {
        assert ps[..|ps|] == ps && outcomes[..|outcomes|] == outcomes;
        ListFlowStopsAtError(ps, old(cache.files), force, now, outcomes, i + 1);
        return Err(models.error);
      }
      listed := listed + Tagged(providers[i].ProviderName(), models.value);
      i := i + 1;
    }
    assert ps[..i] == ps && outcomes[..i] == outcomes;
    r := Ok(listed);
  }

  /** One more provider: the listing of `ps[..i + 1]` extends that of `ps[..i]` by one models call. */
  lemma ListFlowStep(ps: seq<(ProviderSettings, Option<string>)>, files: map<string, CacheFile>,
                     force: bool, now: int, outcomes: seq<HttpOutcome>, i: nat)
    requires |outcomes| == |ps| && i < |ps|
    requires ListFlow(ps[..i], files, force, now, outcomes[..i]).result.Ok?
    ensures var prev := ListFlow(ps[..i], files, force, now, outcomes[..i]);
            var call := ModelsFlow(ps[i].0, ps[i].1, prev.files, !force, now, outcomes[i]);
            ListFlow(ps[..i + 1], files, force, now, outcomes[..i + 1])
              == (match call.result
                  case Err(e) => Listing(Err(e), call.files)
                  case Ok(models) => Listing(Ok(prev.result.value + Tagged(ps[i].0.name, models)), call.files))
  {
    assert ps[..i + 1][..i] == ps[..i];
    assert outcomes[..i + 1][..i] == outcomes[..i];
  }

  /** Once a prefix of the providers has failed, the listing's outcome is that failure. */
  lemma {:induction false} ListFlowStopsAtError(ps: seq<(ProviderSettings, Option<string>)>, files: map<string, CacheFile>,
                                                force: bool, now: int, outcomes: seq<HttpOutcome>, k: nat)
    requires |outcomes| == |ps| && k <= |ps|
    requires ListFlow(ps[..k], files, force, now, outcomes[..k]).result.Err?
    ensures ListFlow(ps, files, force, now, outcomes) == ListFlow(ps[..k], files, force, now, outcomes[..k])
    decreases |ps| - k
  {
    if k < |ps| {
      var n := |ps| - 1;
      assert ps[..n][..k] == ps[..k] && outcomes[..n][..k] == outcomes[..k];
      ListFlowStopsAtError(ps[..n], files, force, now, outcomes[..n], k);
    } else {
      assert ps[..k] == ps && outcomes[..k] == outcomes;
    }
  }
}
