/**
 * The error taxonomy of llminfo_cli/errors.py, together with the built-in and
 * library exceptions the core raises itself or lets through unmapped. Python's
 * class hierarchy becomes the predicates IsLLMInfoError, IsAPIError and
 * IsValueError; the constructor functions New... carry the defaults and the
 * fixed status codes of the Python constructors.
 */
module Errors {
  import opened Wrappers
  import opened JsonValues

  /** Why a plain `ValueError` was raised; each case stands for one message the source formats. */
  datatype ValueProblem =
    | KeyNotSet(envVar: string)            // "<env> environment variable not set"
    | UnknownProvider(name: string)        // "Unknown provider: <name>"
    | UnknownParserType(parserType: Json)  // "Unknown parser type: <value>"
    | PluginFileNotFound(path: string)     // "Plugin file not found: <path>"
    | InvalidPluginConfig(reason: string)  // "Configuration error: <reason>"
    | NoFreeModels                         // "No free models available"
    | NotAFloat(text: string)              // float() of a string it cannot read

  datatype Exc =
    // llminfo_cli/errors.py
    | APIError(message: string, statusCode: Option<int>, provider: Option<string>)
    | RateLimitError(message: string, retryAfter: Option<int>, provider: Option<string>)
    | AuthenticationError(message: string, provider: Option<string>)
    | ConfigurationError(message: string, field: Option<string>)
    | NetworkError(message: string, originalError: Option<Exc>)
    // built-in exceptions
    | ValueError(problem: ValueProblem)
    | KeyError(key: string)
    | TypeError
    | AttributeError
    // pydantic's ValidationError (a ValueError subclass) when a record field has the wrong type
    | ValidationError
    // httpx: raise_for_status on a non-2xx response, and a transport failure
    | HTTPStatusError(code: nat)
    | RequestError(cause: string)
  {
    /** isinstance(e, LLMInfoError) */
    predicate IsLLMInfoError()
    {
      APIError? || RateLimitError? || AuthenticationError? || ConfigurationError? || NetworkError?
    }

    /** isinstance(e, APIError): RateLimitError and AuthenticationError are subclasses. */
    predicate IsAPIError()
    {
      APIError? || RateLimitError? || AuthenticationError?
    }

    /** isinstance(e, ValueError) */
    predicate IsValueError()
    {
      ValueError? || ValidationError?
    }

    /** The `status_code` attribute every APIError has: the two subclasses fix it. */
    function StatusCode(): Option<int>
      requires IsAPIError()
    {
      match this
      case APIError(_, code, _) => code
      case RateLimitError(_, _, _) => Some(429)
      case AuthenticationError(_, _) => Some(401)
    }
  }

  /** `APIError(message, status_code=None, provider=None)`: both attributes stored as given. */
  function NewAPIError(message: string, statusCode: Option<int> := None, provider: Option<string> := None): (e: Exc)
    ensures e.IsAPIError() && e.IsLLMInfoError() && !e.IsValueError()
    ensures e.StatusCode() == statusCode && e.provider == provider && e.message == message
  {
    APIError(message, statusCode, provider)
  }

  /** `RateLimitError(message, retry_after=None, provider=None)`: an APIError whose status is always 429. */
  function NewRateLimitError(message: string, retryAfter: Option<int> := None, provider: Option<string> := None): (e: Exc)
    ensures e.IsAPIError() && e.IsLLMInfoError() && !e.IsValueError()
    ensures e.RateLimitError? && e.StatusCode() == Some(429) && e.retryAfter == retryAfter && e.provider == provider
    ensures e.message == message
  {
    RateLimitError(message, retryAfter, provider)
  }

  /** `AuthenticationError(message, provider=None)`: an APIError whose status is always 401. */
  function NewAuthenticationError(message: string, provider: Option<string> := None): (e: Exc)
    ensures e.IsAPIError() && e.IsLLMInfoError() && !e.IsValueError()
    ensures e.AuthenticationError? && e.StatusCode() == Some(401) && e.provider == provider && e.message == message
  {
    AuthenticationError(message, provider)
  }

  /** `ConfigurationError(message, field=None)`: an LLMInfoError that is not an APIError. */
  function NewConfigurationError(message: string, field: Option<string> := None): (e: Exc)
    ensures e.IsLLMInfoError() && !e.IsAPIError() && !e.IsValueError()
    ensures e.ConfigurationError? && e.field == field && e.message == message
  {
    ConfigurationError(message, field)
  }

  /** `NetworkError(message, original_error=None)`: an LLMInfoError that is not an APIError, keeping its cause. */
  function NewNetworkError(message: string, originalError: Option<Exc> := None): (e: Exc)
    ensures e.IsLLMInfoError() && !e.IsAPIError() && !e.IsValueError()
    ensures e.NetworkError? && e.originalError == originalError && e.message == message
  {
    NetworkError(message, originalError)
  }
}
