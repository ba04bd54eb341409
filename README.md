# llminfo-cli core, modelled in Dafny

llminfo-cli is a command-line tool that lists the models and credit balances of
LLM API providers. This project models the rules under its I/O:

- the two response parsers that turn a decoded JSON payload into `ModelInfo` and
  `CreditInfo` records;
- the plugin configuration validator;
- the per-provider model cache with its one-hour TTL;
- the best-free-model selection;
- the generic provider's control flow (key check, cache, request, parse, cache
  write) and its mapping of HTTP failures onto the error taxonomy;
- the provider registry;
- the legacy hard-wired OpenRouter provider;
- the command helpers of `main.py`: loading and validating a plugin, building a
  provider from it, classifying errors for the exit message, merging an
  imported provider into the user catalogue, and listing the models of every
  provider.

Decoded JSON and YAML documents are the `Json` datatype (numbers are exact
reals). Errors are one `Exc` datatype: the classes of `errors.py` plus the
built-in, pydantic and httpx exceptions that the core raises or lets through.
Each HTTP round trip is a parameter, `HttpOutcome`: a status with a decoded body,
or a transport failure. Each provider call returns the `Request` it would send
(URL, Bearer header, timeout), or `None` when it sends none. Other inputs are
parameters too:

- the process environment is a map;
- the clock is an integer count of microseconds;
- the cache directory is a map from file name to file contents held by the
  `CacheManager` class;
- the plugin and catalogue files are maps from path to decoded document.

Files: `wrappers.dfy` (Option, Result), `json.dfy`, `errors.dfy`, `schemas.dfy`,
`collections.dfy` (map-all, filter, rank, first minimum), `decimal.dfy`,
`parsers.dfy`, `validators.dfy`, `cache.dfy`, `models.dfy`, `generic.dfy`
(modules `Generic` and `GenericProperties`), `registry.dfy`, `openrouter.dfy`,
`cli.dfy`.

The program carries pieces that suggest more than its code does. In each case
the model follows what the code does:

- `import-provider` writes the user catalogue (llminfo_cli/main.py:346-352),
  but the registry reads only the bundled `providers.yml`
  (llminfo_cli/providers/__init__.py:15-23). An imported provider is therefore
  not found by `get_provider`.
- `GenericProvider` takes a `cache_ttl_hours` parameter
  (llminfo_cli/providers/generic.py:27,36), but the cache manager cannot take
  it. The TTL is the fixed class constant of one hour (llminfo_cli/cache.py:15).
- `ConfigurationError` is declared (llminfo_cli/errors.py:40-45), but the
  registry never raises it. An unknown provider or parser type raises a plain
  `ValueError`.

## Model

| member | source | states |
|---|---|---|
| Errors.NewAPIError | llminfo_cli/errors.py:12-20 | An APIError is an LLMInfoError and an APIError, not a ValueError; `status_code` and `provider` default to None and are kept as given, with the message |
| Errors.NewRateLimitError | llminfo_cli/errors.py:23-30 | A RateLimitError is a kind of APIError whose status code is always 429; `retry_after` defaults to None and is kept as given |
| Errors.NewAuthenticationError | llminfo_cli/errors.py:33-37 | An AuthenticationError is a kind of APIError whose status code is always 401, keeping the provider |
| Errors.NewConfigurationError | llminfo_cli/errors.py:40-45 | A ConfigurationError is an LLMInfoError but not an APIError; `field` defaults to None and is kept |
| Errors.NewNetworkError | llminfo_cli/errors.py:48-53 | A NetworkError is an LLMInfoError but not an APIError; it keeps `original_error`, default None |
| Schemas.NewModelInfo | llminfo_cli/schemas.py:6-12 | A record is built exactly when id and name are strings, context_length is an integer or null and pricing a mapping or null; otherwise ValidationError; every value is kept |
| Parsers.OpenAICompatibleModels | llminfo_cli/providers/parsers.py:28-41 | The value under `model_path` (default `[]`) is read: any non-list gives `[]` and no error; a list gives one record per entry in order, all or nothing, with `id` defaulting to "", `name` equal to `id`, context_length and pricing passed through (None when absent); a response that is not a mapping has no `get` |
| Parsers.OpenAICompatibleCredits | llminfo_cli/providers/parsers.py:43-46 | None for every response and every `credit_path` |
| Parsers.OpenRouterModels | llminfo_cli/providers/parsers.py:52-63 | A missing `data` gives `[]`; a list succeeds exactly when every entry is a mapping with a valid `id` and `name`, with no partial result; one record per entry in order with context_length and pricing passed through; an entry lacking `id` fails the call; a `data` that is not a list gives `[]` when it is an empty string or mapping and TypeError otherwise (a non-empty string is iterated into characters that take no `["id"]`) |
| Parsers.CreditsOf | llminfo_cli/providers/parsers.py:66-75 | Missing `total_credits` or `total_usage` count as 0; present amounts pass through; `remaining = total_credits - total_usage`, never clamped; a boolean amount counts as 1 or 0, as in Python's subtraction and pydantic's float field; any other non-number fails with TypeError; a non-mapping has no `get` |
| Parsers.OpenRouterCredits | llminfo_cli/providers/parsers.py:65-75 | A response without `data` gives credits, usage and remaining 0; otherwise the credit arithmetic of `data` |
| Validators.FirstMissing | llminfo_cli/validators.py:12-16 | The loop over the required fields reports nothing exactly when all are present, and otherwise the first absent one in list order |
| Validators.ValidateProviderConfig | llminfo_cli/validators.py:6-49 | `(True, "")` exactly when every check passes (required fields, non-empty strings, http(s) scheme, upper-case key variable, known parser, credits endpoint string or null); every rejection carries a non-empty message |
| Validators.MissingFieldReportedFirst | llminfo_cli/validators.py:12-16 | When the i-th required field is the first missing one, the result is "Missing required field: " followed by that field |
| Validators.SchemeCheckedBeforeLaterFields | llminfo_cli/validators.py:18-27 | A base_url without http:// or https:// is reported as such whatever the later fields hold |
| Validators.LowercaseApiKeyEnvRejected | llminfo_cli/validators.py:29-34 | An api_key_env with a lower-case letter fails `isupper` and gives "api_key_env should be uppercase" once the earlier checks pass |
| Cache.CacheFileNameParts | llminfo_cli/cache.py:20-22 | The cache file name of a provider (`CacheFileName`) is the provider name followed by "_models.json" |
| Cache.CacheFileNameInjective | llminfo_cli/cache.py:20-22 | As strings, `provider + "_models.json"` is injective: distinct provider names give distinct file names |
| Cache.CacheManager.constructor | llminfo_cli/cache.py:15-18 | Creating the manager keeps the files already in the directory |
| Cache.CacheManager.Get | llminfo_cli/cache.py:24-38 | Returns the stored models exactly when the provider's file exists and `now - cached_at <= TTL`, otherwise None; it changes nothing, not even on expiry |
| Cache.CacheManager.Set | llminfo_cli/cache.py:40-51 | The provider's file is overwritten with the models and the current time |
| Cache.CacheManager.Invalidate | llminfo_cli/cache.py:53-60 | The provider's file is removed; a file that is not there is no error |
| Cache.LookupWithoutEntry | llminfo_cli/cache.py:26-29 | A provider with no file reads as None |
| Cache.StoreThenLookup | llminfo_cli/cache.py:34-51 | `set` then `get` at most one TTL later returns the stored models; an entry exactly one TTL old is still a hit |
| Cache.LookupAfterExpiry | llminfo_cli/cache.py:34-36 | More than one TTL after `set` the entry reads as None, but the file is still there |
| Cache.StoreKeepsOthers | llminfo_cli/cache.py:20-22 | `set(p, _)` leaves every provider whose file name differs from p's reading exactly as before |
| Cache.RemoveEffect | llminfo_cli/cache.py:53-60 | After `invalidate(p)`, p reads as None and every provider whose file name differs from p's reads as before |
| Cache.RemoveIdempotent | llminfo_cli/cache.py:55-60 | Invalidating twice equals invalidating once |
| Collections.FirstMinimum | llminfo_cli/models.py:30-32 | The index picked by a stable sort followed by `[0]`: an index of a least key, with every earlier key strictly greater |
| Decimal.NatToString | llminfo_cli/providers/generic.py:77 | `str(status_code)` is a non-empty digit string with no leading zero except for 0 |
| Decimal.NatToStringRoundTrip | llminfo_cli/providers/generic.py:77 | Reading the decimal string of a status code back gives the code |
| Models.ParseDecimalOfNatString | llminfo_cli/models.py:30 | The price reader reads every integer literal back as its value, so `float("999999")` is 999999 |
| Models.PriceKey | llminfo_cli/models.py:30 | A model without pricing or with an empty pricing has the key 999999; a key that cannot be read is a TypeError or a ValueError from `float()` |
| Models.MissingPromptSortsWithUnpriced | llminfo_cli/models.py:30 | A non-empty pricing without "prompt" reads the default "999999", so it sorts with the unpriced models |
| Models.CandidatesAreEligible | llminfo_cli/models.py:17-27 | The two list filters keep, in input order, exactly the eligible models: the free ones, limited to those with context above 32000 when there is one |
| Models.NoFreeModelsIffNoneFree | llminfo_cli/models.py:17-20 | The selection fails with "No free models available" exactly when no input model is free; price errors are never mistaken for it |
| Models.SelectBestFreeModel | llminfo_cli/models.py:8-32 | A chosen model is a free member of the input; a failure is "No free models available" or the error `float()` raised on a price. The full characterisation is in SelectionIsFirstCheapestEligible |
| Models.SelectionIsFirstCheapestEligible | llminfo_cli/models.py:17-32 | It succeeds exactly when some model is free and every eligible model's price can be read. It then returns the first eligible model whose price key (prompt price, 999999 without pricing) is least. Otherwise it fails with the error of the first eligible model whose price cannot be read |
| Models.SelectionPrefersLongContext | llminfo_cli/models.py:17-32 | The result is a free member of the input, has context above 32000 whenever some free model has, and no eligible model is cheaper |
| Models.LongContextBeatsShort | llminfo_cli/models.py:23-27 | A free model with context above 32000 wins over a free one without, whatever their prices; exactly 32000 does not qualify |
| Models.LongContextAndCheaperPriceWin | llminfo_cli/models.py:17-32 | Two free models of 32000 and 131072 tokens priced "0.01" and "0.00": the second is chosen |
| Models.EqualPricesKeepInputOrder | llminfo_cli/models.py:23-32 | With no long-context model and both prices at 999999 (pricing None and empty), the first model is chosen |
| Models.AsWrittenFailsWhereIntendedSucceeds | llminfo_cli/models.py:17 | Wherever the intended selection returns a model, the selection as written over the same records without `is_free` raises AttributeError |
| Models.SelectBestFreeModelAsWritten | llminfo_cli/models.py:17-20 | As written over the schema's records: an empty list gives "No free models available", any other list AttributeError |
| Generic.BearerRoundTrip | llminfo_cli/providers/generic.py:52 | The Authorization header `Bearer <key>` carries the key and only the key |
| Generic.CreateOpenAICompatible | llminfo_cli/providers/generic.py:140-161 | The OpenAI-compatible parser reading "data", `/models` by default, no credits endpoint by default, the other arguments kept |
| Generic.CreateOpenRouter | llminfo_cli/providers/generic.py:163-178 | Name "openrouter", key variable OPENROUTER_API_KEY, the OpenRouter parser, the given key |
| Generic.ResolveApiKey | llminfo_cli/providers/generic.py:32 | A non-empty explicit key wins, otherwise the environment variable; a usable key exists exactly when one of the two is non-empty |
| Generic.MapHttpStatus | llminfo_cli/providers/generic.py:63-80 | Every failed status becomes an APIError carrying that status and the provider; it is an AuthenticationError exactly for 401 and a RateLimitError exactly for 429 (retry_after None) |
| Generic.MapTransport | llminfo_cli/providers/generic.py:81-85 | A transport failure becomes a NetworkError, not an APIError, keeping the original httpx error |
| Generic.GenericProvider.constructor | llminfo_cli/providers/generic.py:18-36 | The settings are kept, the key is resolved from the argument or the environment, the cache manager is the one given |
| Generic.GenericProvider.ProviderName | llminfo_cli/providers/generic.py:131-134 | The configured name |
| Generic.GenericProvider.GetModels | llminfo_cli/providers/generic.py:38-85 | Result, request and new cache directory are those of the models flow on the directory before the call |
| Generic.GenericProvider.GetCredits | llminfo_cli/providers/generic.py:87-129 | Result and request are those of the credits flow; the cache is not touched |
| GenericProperties.KeyCheckedFirst | llminfo_cli/providers/generic.py:40-41 | Without a key both calls fail naming `api_key_env`, before any cache read or request |
| GenericProperties.ModelsRequestSent | llminfo_cli/providers/generic.py:43-54 | A request is sent exactly when there is a key and the cache was not used or missed; it goes to base_url + models_endpoint with the key as Bearer token and a 30 s timeout |
| GenericProperties.CacheHitShortCircuits | llminfo_cli/providers/generic.py:43-46 | With `use_cache` and a fresh entry the cached models are returned, no request is sent and nothing is written |
| GenericProperties.ModelsCacheEffect | llminfo_cli/providers/generic.py:48-62 | A failed call leaves the cache unchanged. The cache changes only by a successful fetch, whatever `use_cache` was, and then the entry reads back as the result. Other providers' entries never change |
| GenericProperties.FetchThenCacheHit | llminfo_cli/providers/generic.py:43-62 | Models fetched from the server are returned from the cache without a request by any cached call in the next hour |
| GenericProperties.ParseFailurePropagates | llminfo_cli/providers/generic.py:58-60 | A parser error reaches the caller unmapped and nothing is cached |
| GenericProperties.FailuresMappedAlike | llminfo_cli/providers/generic.py:63-85 | Both calls turn a failed status into the same typed API error and a transport failure into the same NetworkError |
| GenericProperties.CreditsRequestSent | llminfo_cli/providers/generic.py:89-106 | A credits request is sent exactly when there is a key and a non-empty credits endpoint; without an endpoint the answer is None; the request carries the key |
| GenericProperties.OpenRouterUrls | llminfo_cli/providers/generic.py:163-178 | The OpenRouter factory's requests go to https://openrouter.ai/api/v1/models and /credits |
| GenericProperties.CacheManagerCallAsWritten | llminfo_cli/cache.py:17 | The cache manager's constructor rejects every keyword argument with TypeError |
| GenericProperties.GenericProviderInitAsWritten | llminfo_cli/providers/generic.py:36 | As written, constructing a GenericProvider raises TypeError for every argument list |
| GenericProperties.ModelsFlowAsWritten | llminfo_cli/providers/generic.py:43-62 | As written, `get_models` never returns models |
| GenericProperties.AwaitOnSyncCacheDiscrepancy | llminfo_cli/providers/generic.py:44 | Wherever the intended call returns models, the call as written raises TypeError; without the cache it has already written the file |
| Registry.LoadProviderConfig | llminfo_cli/providers/__init__.py:15-23 | A missing file or an empty (falsy) document reads as an empty mapping; any other document is kept |
| Registry.BuildSettings | llminfo_cli/providers/__init__.py:26-48 | A provider built from an entry carries its string name, base_url, api_key_env and models_endpoint and the given API key; a failure is an unknown parser type, a KeyError on one of the four indexed keys, or TypeError. The full characterisation is in BuildSettingsProperties |
| Registry.BuildSettingsProperties | llminfo_cli/providers/__init__.py:26-48 | The parser is chosen first: openai_compatible when absent, openrouter selects the OpenRouter parser, anything else fails naming it. Then the first absent key among name, base_url, api_key_env and models_endpoint is the KeyError. A provider carries the entry's values, the given API key and a credits endpoint that is None exactly when absent or null |
| Registry.ValidatedConfigBuilds | llminfo_cli/providers/__init__.py:30-48 | Every configuration the validator accepts builds a provider, with the parser it names |
| Registry.GetProvider | llminfo_cli/providers/__init__.py:51-59 | A provider found comes from a mapping entry under the name in the providers section and carries the API key override; a failure is "Unknown provider", a build error of the entry, or the TypeError or AttributeError of a malformed catalogue. The lookup itself is characterised in GetProviderLookup |
| Registry.GetProviderLookup | llminfo_cli/providers/__init__.py:51-59 | "Unknown provider" exactly when the name is not a key of the providers mapping. A provider found takes its name from the entry's `name` field, not the lookup key, and takes the API key override |
| Registry.EmptyCatalogueKnowsNothing | llminfo_cli/providers/__init__.py:19-20 | With no catalogue file, or no `providers` key, every lookup is "Unknown provider" |
| Registry.GetProviders | llminfo_cli/providers/__init__.py:62-72 | One provider per catalogue key, each built from its entry without an API key override; it succeeds exactly when every entry builds, otherwise it fails with one failing entry's error; no catalogue gives an empty mapping |
| OpenRouterLegacy.OpenRouterProvider.constructor | llminfo_cli/providers/openrouter.py:18-19 | The key is the argument if non-empty, else OPENROUTER_API_KEY from the environment |
| OpenRouterLegacy.OpenRouterProvider.ProviderName | llminfo_cli/providers/openrouter.py:69-72 | Always "openrouter" |
| OpenRouterLegacy.OpenRouterProvider.GetModels | llminfo_cli/providers/openrouter.py:21-44 | A request is sent exactly when there is a key; without one the call fails naming OPENROUTER_API_KEY; a 2xx body gives the legacy mapping of `data` |
| OpenRouterLegacy.OpenRouterProvider.GetCredits | llminfo_cli/providers/openrouter.py:46-67 | A request is sent exactly when there is a key; without one the call fails naming OPENROUTER_API_KEY; a 2xx body gives the credit arithmetic of `data`, so remaining is credits minus usage |
| OpenRouterLegacy.LegacyModels | llminfo_cli/providers/openrouter.py:33-44 | A body that is not a mapping is TypeError and one without `data` KeyError("data"); a `data` that is not a list gives `[]` when it is an empty string or mapping and TypeError otherwise |
| OpenRouterLegacy.LegacyCredits | llminfo_cli/providers/openrouter.py:58-67 | A body that is not a mapping is TypeError and one without `data` KeyError("data"); otherwise the credit arithmetic of `data` (CreditsOf), with remaining equal to credits minus usage |
| OpenRouterLegacy.LegacyKeyCheckedFirst | llminfo_cli/providers/openrouter.py:21-24 | Without a key both calls fail naming OPENROUTER_API_KEY and send no request |
| OpenRouterLegacy.LegacyRequests | llminfo_cli/providers/openrouter.py:26-67 | With a key each call sends one request to its fixed URL with the key as Bearer token; on a 2xx response the models are LegacyModels of the body and the credits LegacyCredits of it, i.e. CreditsOf its `data` |
| OpenRouterLegacy.LegacyNoErrorMapping | llminfo_cli/providers/openrouter.py:32 | A failed status or transport reaches the caller as the httpx error, outside the LLMInfoError family |
| OpenRouterLegacy.LegacyEntriesMapping | llminfo_cli/providers/openrouter.py:33-44 | All or nothing: each entry needs `id` and `name`; one record per entry in order; context_length and pricing optional and passed through; `is_free` exactly when ":free" occurs in the id |
| OpenRouterLegacy.LegacyStricterEnvelope | llminfo_cli/providers/openrouter.py:33 | A body without `data` is a KeyError for models and credits, where the OpenRouter parser answers `[]` and zero credits |
| OpenRouterLegacy.LegacyAgreesWithParser | llminfo_cli/providers/openrouter.py:35-44 | On a `data` list the legacy mapping and the OpenRouter parser succeed together and build the same records, except for `is_free` |
| Cli.CreateProviderFromConfig | llminfo_cli/main.py:115-145 | The same settings as the registry's builder; an unknown parser type fails naming it; every validated configuration builds |
| Cli.FirstAbsent | llminfo_cli/validators.py:14-16 | On a list or string document, `field in doc` finds every required field exactly when nothing is reported; the field reported is the first absent one in list order |
| Cli.ValidateDocument | llminfo_cli/main.py:105-108 | A mapping is validated as such; only a mapping can be valid |
| Cli.LoadAndValidateConfig | llminfo_cli/main.py:90-112 | A missing file fails with "Plugin file not found" before anything else. A mapping is accepted exactly when it is valid, and then returned unchanged. A rejection is "Configuration error" carrying the validator's non-empty message |
| Cli.AsciiUpper | llminfo_cli/main.py:67 | The upper-casing of the provider name in the 401 hint: each a-z becomes its capital, every other character is kept, the length is unchanged |
| Cli.HandleCommandError | llminfo_cli/main.py:47-87 | The exit code is always 1. Value errors are reported as such, network errors as such, and every other non-API error as unexpected. A 401 carries the provider's key-variable hint when a provider is known |
| Cli.StatusErrorsReported | llminfo_cli/main.py:58-78 | The errors of the status mapping are reported by status in priority order: 401 with the hint, 429, 404, 500 and above, then the rest with their code |
| Cli.OtherProviderErrorsReported | llminfo_cli/main.py:54-86 | A transport failure is a network problem and a missing key a value error. The legacy provider's raw httpx errors and a ConfigurationError are unexpected |
| Cli.MergeImported | llminfo_cli/main.py:346-352 | The in-place `setdefault(...)[name] = config` yields the catalogue of `Merged` |
| Cli.MergeUpdatesOneEntry | llminfo_cli/main.py:346-352 | The merge sets `providers[name]` to the plugin and keeps every other provider and top-level key. A missing or empty file gives a one-provider catalogue. A document that is not a mapping fails |
| Cli.ImportedProviderResolves | llminfo_cli/main.py:331-352 | A validated plugin merged into a catalogue is found there under its name and builds exactly the provider the plugin describes. The program never composes these two steps, since `get_provider` reads only the bundled catalogue; the lemma states what a lookup in the written catalogue would give |
| Cli.ListModels | llminfo_cli/main.py:250-255 | Every provider is asked in turn with `use_cache = not force`; its models are tagged with its name; the first failure ends the listing |
| Cli.ForcedListingIgnoresCache | llminfo_cli/main.py:253 | With `--force` the listing does not depend on what the cache held |

## Left out

- HTTP transport, async/await and the client's lifecycle. Each round trip is the
  `HttpOutcome` parameter. A body that is not valid JSON (`response.json()`
  raising) is not modelled.
- Reading and writing YAML and JSON files, home-directory paths and `mkdir`.
  Files are decoded documents in maps, and the writing of the merged catalogue
  is its value. A document with non-string keys, or a YAML parse error, is not
  modelled.
- Cache.CacheFileNameInjective: path syntax in provider names is not modelled.
  The cache directory is a map keyed by the file-name string. `pathlib` joins
  the name into a path, so "./p" and "p" share one file, and so do "a//b" and
  "a/b". A name with "/" names a file in a sub-directory, and `set` raises
  FileNotFoundError when that directory is missing. A leading "/" or a ".."
  segment puts the file outside the cache directory, e.g. "/tmp/p" gives
  /tmp/p_models.json. Cache.StoreKeepsOthers and Cache.RemoveEffect hold for
  distinct file-name strings only, not for path-equivalent names.
- Cache.StoreKeepsOthers: holds for distinct file-name strings only, as the
  previous line explains.
- Cache.RemoveEffect: holds for distinct file-name strings only, as above.
- Cache.CacheManager.Get: a corrupt cache file or a bad `cached_at` timestamp,
  which raise in the source, are not modelled. The file holds the decoded
  record.
- The clock: one `now` per call, in microseconds; ISO formatting is not modelled.
- Floating point: amounts and prices are exact reals, with no rounding.
- Models.FloatOf: reads an optional sign, digits and an optional fraction. The
  exponents, `inf`/`nan`, surrounding whitespace and underscores that Python's
  `float()` also accepts are reported as unreadable.
- Schemas.NewModelInfo: pydantic's lax coercions are not modelled. These are
  numeric strings to int, booleans as integers, and float-to-str refusal
  details. The model accepts strings, integral numbers or null, and mappings or
  null.
- Validators.IsUpper: ASCII letters only. Non-ASCII cased characters are not
  modelled.
- Validators.ValidateProviderConfig: the `isupper` check on api_key_env sees
  ASCII letters only (Validators.IsUpper). This differs in both directions. A
  name with a non-ASCII lower-case letter (e.g. "KEY_é") is accepted here,
  where Python rejects it. A name whose only cased letters are non-ASCII
  capitals (e.g. "É_1") is rejected here with "api_key_env should be
  uppercase", where Python accepts it.
- Registry.BuildSettings: the model rejects with TypeError a non-string name,
  base_url, api_key_env, models_endpoint or credits_endpoint. The source stores
  such values unchecked.
- Registry.BuildSettingsProperties: states the builder above, so it shares its
  TypeError for non-string values, which the source stores unchecked.
- Registry.GetProviders: dictionary order is not modelled, so when several entries
  fail the error is that of one of them, not necessarily the first in file order.
- Cli.AsciiUpper: upper-cases a-z only. Python's `str.upper()` also maps
  non-ASCII letters, e.g. "é" to "É" and "ß" to "SS" (which changes the
  length); that is not modelled.
- Cli.HandleCommandError: the 401 hint upper-cases the provider name in ASCII only (Cli.AsciiUpper). Python's `str.upper()` also maps non-ASCII letters, e.g. "é" to "É" and "ß" to "SS", which changes the length; that is not modelled.
- Cli.HandleCommandError: only the classification, the exit code and the
  key-variable hint are modelled. The printed text and the logging are not.
- Cli.ListModels: the providers come as a sequence sharing one cache directory.
  The single-provider branch of `list models` is the same call for one provider.
- The rest of the CLI is user interface and not modelled: the `credits` and
  `test-provider` output, `display_test_results`, the rich table, typer wiring
  and logging.
- llminfo_cli/providers/base.py declares an abstract interface with no behaviour.
  Both provider classes have its three members, but no common supertype is
  declared.
- `CacheManager` is given to the generic provider by the caller. This is the
  corrected construction (see Findings). Providers built over the same manager
  share its directory, as providers share the one cache directory on disk.

## Findings

| source | as written | input that shows it | evidently intended | confidence | as-written member | corrected member |
|---|---|---|---|---|---|---|
| llminfo_cli/providers/generic.py:36 | `GenericProvider.__init__` calls `CacheManager(ttl_hours=cache_ttl_hours)`, but `CacheManager.__init__` (llminfo_cli/cache.py:17) takes no argument | any construction, e.g. `ProviderFactory.create_openrouter()`: TypeError | construct the cache manager without arguments; the TTL is the class constant | not executed | GenericProperties.GenericProviderInitAsWritten | Generic.GenericProvider.constructor |
| llminfo_cli/providers/generic.py:44,60 | `get_models` awaits the synchronous `CacheManager.get` and `set`; awaiting a list or None raises TypeError, which no `except` arm catches | a key and `use_cache=True`: TypeError. A key, `use_cache=False`, status 200 and body `{"data": []}`: the cache file is written, then TypeError | call `get` and `set` without `await` | not executed | GenericProperties.AwaitOnSyncCacheDiscrepancy | Generic.GenericProvider.GetModels |
| llminfo_cli/models.py:17 | `ModelInfo` (llminfo_cli/schemas.py:6-12) declares no `is_free`. pydantic drops the `is_free=` argument of llminfo_cli/providers/openrouter.py:41, and `m.is_free` raises AttributeError | any non-empty list of models | `ModelInfo` carries `is_free: bool = False`, set by the providers | not executed | Models.SelectBestFreeModelAsWritten | Models.SelectionIsFirstCheapestEligible |
