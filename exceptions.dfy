/**
 * The application's exception classes and the message each API error builds.
 * A raised exception is a value of type `Exc`; Python's `isinstance` and the
 * class tuples of `except` clauses are `IsSubclass` and `Catches`.
 */
module Exceptions {
  import opened Wrappers
  import opened PyText

  /** The custom classes of the application and the built-in classes the modelled code raises or catches. */
  datatype ErrorClass =
    // application classes
    | BreatheEasyError
    | DataFileNotFoundError | ConfigFileNotFoundError | ModelFileNotFoundError
    | APIError | APIKeyError | APIRateLimitError | APINotFoundError | APITimeoutError
    | ModelLoadError | PredictionError | ConfigError
    // Python built-in classes
    | Exception | OSError | FileNotFoundError | TimeoutError
    | ValueError | RuntimeError | TypeError | AttributeError | LookupError | KeyError

  /** Distance from `Exception` along the longest chain of base classes. */
  function Rank(c: ErrorClass): nat {
    match c
    case Exception => 0
    case BreatheEasyError | OSError | ValueError | RuntimeError | TypeError | AttributeError | LookupError => 1
    case FileNotFoundError | TimeoutError | KeyError | APIError | ModelLoadError | PredictionError | ConfigError => 2
    case DataFileNotFoundError | ConfigFileNotFoundError | ModelFileNotFoundError => 3
    case APIKeyError | APIRateLimitError | APINotFoundError | APITimeoutError => 3
  }

  /** The direct base classes, in declaration order (never more than two here). */
  function Bases(c: ErrorClass): (r: seq<ErrorClass>)
    ensures |r| <= 2
    ensures forall i :: 0 <= i < |r| ==> Rank(r[i]) < Rank(c)
  {
    match c
    case BreatheEasyError => [Exception]
    case DataFileNotFoundError | ConfigFileNotFoundError | ModelFileNotFoundError => [BreatheEasyError, FileNotFoundError]
    case APIError | ModelLoadError | PredictionError | ConfigError => [BreatheEasyError]
    case APIKeyError | APIRateLimitError | APINotFoundError => [APIError]
    case APITimeoutError => [APIError, TimeoutError]
    case Exception => []
    case OSError | ValueError | RuntimeError | TypeError | AttributeError | LookupError => [Exception]
    case FileNotFoundError | TimeoutError => [OSError]
    case KeyError => [LookupError]
  }

  /** Every class `c` is a subclass of: `c` itself and all classes above it (the classes of its MRO). */
  function Ancestors(c: ErrorClass): (s: set<ErrorClass>)
    ensures c in s && Exception in s
  {
    match c
    case Exception => {Exception}
    case BreatheEasyError | OSError | ValueError | RuntimeError | TypeError | AttributeError | LookupError => {c, Exception}
    case FileNotFoundError | TimeoutError => {c, OSError, Exception}
    case KeyError => {c, LookupError, Exception}
    case APIError | ModelLoadError | PredictionError | ConfigError => {c, BreatheEasyError, Exception}
    case DataFileNotFoundError | ConfigFileNotFoundError | ModelFileNotFoundError =>
      {c, BreatheEasyError, FileNotFoundError, OSError, Exception}
    case APIKeyError | APIRateLimitError | APINotFoundError => {c, APIError, BreatheEasyError, Exception}
    case APITimeoutError => {c, APIError, BreatheEasyError, TimeoutError, OSError, Exception}
  }

  /** The classes above `c` are `c` and the classes above its direct bases: the table is the transitive closure of `Bases`. */
  lemma AncestorsFollowBases(c: ErrorClass)
    ensures var bs := Bases(c);
      Ancestors(c) == {c} + (if |bs| > 0 then Ancestors(bs[0]) else {}) + (if |bs| > 1 then Ancestors(bs[1]) else {})
  {
  }

  /** `issubclass(c, d)`. */
  predicate IsSubclass(c: ErrorClass, d: ErrorClass) {
    d in Ancestors(c)
  }

  /** The classes declared by the application itself. */
  predicate IsApplicationClass(c: ErrorClass) {
    c.BreatheEasyError? || c.DataFileNotFoundError? || c.ConfigFileNotFoundError? || c.ModelFileNotFoundError?
    || c.APIError? || c.APIKeyError? || c.APIRateLimitError? || c.APINotFoundError? || c.APITimeoutError?
    || c.ModelLoadError? || c.PredictionError? || c.ConfigError?
  }

  /** Every application class is a `BreatheEasyError`, and every class is an `Exception`. */
  lemma ApplicationClassesAreBreatheEasy(c: ErrorClass)
    ensures IsApplicationClass(c) <==> IsSubclass(c, BreatheEasyError)
    ensures IsSubclass(c, Exception)
  {
  }

  /** `APIError` and its four specialisations. */
  predicate IsApiClass(c: ErrorClass) {
    c.APIError? || c.APIKeyError? || c.APIRateLimitError? || c.APINotFoundError? || c.APITimeoutError?
  }

  /** Exactly `APIError` and its four specialisations are `APIError`s. */
  lemma ApiErrorClasses(c: ErrorClass)
    ensures IsSubclass(c, APIError) <==> IsApiClass(c)
  {
  }

  /** A `FileNotFoundError` is no `ValueError`. */
  lemma FileNotFoundIsNoValueError()
    ensures !IsSubclass(FileNotFoundError, ValueError)
  {
  }

  /** The timeout error is also a `TimeoutError`, and the file errors are also `FileNotFoundError`s. */
  lemma SecondBases()
    ensures IsSubclass(APITimeoutError, TimeoutError)
    ensures IsSubclass(DataFileNotFoundError, FileNotFoundError) && IsSubclass(ModelFileNotFoundError, FileNotFoundError)
  {
  }

  /**
   * A raised exception. `text` is `str(e)`; API errors also carry the
   * `status_code` and `service` attributes their constructor sets.
   */
  datatype Exc =
    | Raised(cls: ErrorClass, text: string)
    | ApiRaised(cls: ErrorClass, text: string, statusCode: Option<int>, service: string)

  /** An `except (C1, C2, ...)` clause catches `e`. */
  predicate Catches(handlers: seq<ErrorClass>, e: Exc) {
    exists i | 0 <= i < |handlers| :: IsSubclass(e.cls, handlers[i])
  }

  /** Python truthiness of an optional status code: `None` and `0` are false. */
  predicate Truthy(statusCode: Option<int>) {
    statusCode.Some? && statusCode.value != 0
  }

  /** The text `APIError.__init__` passes to `Exception`. */
  function ApiMessage(service: string, message: string, statusCode: Option<int>): (r: string)
    ensures StartsWith(r, service + " API Error: " + message)
    ensures Truthy(statusCode) ==> r[|service + " API Error: " + message|..] == " (Status: " + IntToString(statusCode.value) + ")"
    ensures !Truthy(statusCode) ==> r == service + " API Error: " + message
  {
    service + " API Error: " + message
    + (if Truthy(statusCode) then " (Status: " + IntToString(statusCode.value) + ")" else "")
  }

  /** The message shows a status suffix exactly when the status code is truthy. */
  lemma StatusSuffixIffTruthy(service: string, message: string, statusCode: Option<int>)
    ensures ApiMessage(service, message, statusCode) != service + " API Error: " + message <==> Truthy(statusCode)
  {
    var r := ApiMessage(service, message, statusCode);
    if Truthy(statusCode) {
      assert |r| > |service + " API Error: " + message|;
    }
  }

  /** `APIError(message, status_code, service)`, with the defaults of its constructor. */
  function NewApiError(message: string := "API error occurred", statusCode: Option<int> := None, service: string := "Unknown"): (e: Exc)
    ensures e.ApiRaised? && e.cls == APIError && e.statusCode == statusCode && e.service == service
    ensures e.text == ApiMessage(service, message, statusCode)
  {
    ApiRaised(APIError, ApiMessage(service, message, statusCode), statusCode, service)
  }

  /** `APIKeyError(message, service)`: always status 401. */
  function NewApiKeyError(message: string := "Invalid or missing API key", service: string := "Unknown"): (e: Exc)
    ensures e.ApiRaised? && e.cls == APIKeyError && e.statusCode == Some(401) && e.service == service
    ensures e.text == ApiMessage(service, message, Some(401))
  {
    ApiRaised(APIKeyError, ApiMessage(service, message, Some(401)), Some(401), service)
  }

  /** `APIRateLimitError(message, service)`: always status 429. */
  function NewApiRateLimitError(message: string := "API rate limit exceeded", service: string := "Unknown"): (e: Exc)
    ensures e.ApiRaised? && e.cls == APIRateLimitError && e.statusCode == Some(429) && e.service == service
    ensures e.text == ApiMessage(service, message, Some(429))
  {
    ApiRaised(APIRateLimitError, ApiMessage(service, message, Some(429)), Some(429), service)
  }

  /** `APINotFoundError(message, service)`: always status 404. */
  function NewApiNotFoundError(message: string := "Resource not found by API", service: string := "Unknown"): (e: Exc)
    ensures e.ApiRaised? && e.cls == APINotFoundError && e.statusCode == Some(404) && e.service == service
    ensures e.text == ApiMessage(service, message, Some(404))
  {
    ApiRaised(APINotFoundError, ApiMessage(service, message, Some(404)), Some(404), service)
  }

  /** `APITimeoutError(message, service)`: no status, so no suffix. */
  function NewApiTimeoutError(message: string := "API request timed out", service: string := "Unknown"): (e: Exc)
    ensures e.ApiRaised? && e.cls == APITimeoutError && e.statusCode == None && e.service == service
    ensures e.text == service + " API Error: " + message
  {
    ApiRaised(APITimeoutError, ApiMessage(service, message, None), None, service)
  }

  /** `APIKeyError` always shows status 401. */
  lemma ApiKeyErrorText(service: string, message: string)
    ensures NewApiKeyError(message, service).text == service + " API Error: " + message + " (Status: 401)"
  {
    StatusText401();
    SuffixText(service + " API Error: " + message, 401);
  }

  /** `APIRateLimitError` always shows status 429. */
  lemma ApiRateLimitErrorText(service: string, message: string)
    ensures NewApiRateLimitError(message, service).text == service + " API Error: " + message + " (Status: 429)"
  {
    StatusText429();
    SuffixText(service + " API Error: " + message, 429);
  }

  /** `APINotFoundError` always shows status 404. */
  lemma ApiNotFoundErrorText(service: string, message: string)
    ensures NewApiNotFoundError(message, service).text == service + " API Error: " + message + " (Status: 404)"
  {
    StatusText404();
    SuffixText(service + " API Error: " + message, 404);
  }

  /** With the defaults, an `APIError` names the service "Unknown" and shows no status. */
  lemma DefaultApiErrorText(message: string)
    ensures NewApiError(message).text == "Unknown API Error: " + message
  {
  }

  /** The suffix of a status, appended to a text. */
  lemma SuffixText(head: string, code: int)
    ensures head + (" (Status: " + IntToString(code) + ")") == head + " (Status: " + IntToString(code) + ")"
  {
  }

  lemma StatusText401()
    ensures " (Status: " + IntToString(401) + ")" == " (Status: 401)"
  {
    assert NatToString(4) == "4" && NatToString(40) == "40";
  }

  lemma StatusText429()
    ensures " (Status: " + IntToString(429) + ")" == " (Status: 429)"
  {
    assert NatToString(4) == "4" && NatToString(42) == "42";
  }

  lemma StatusText404()
    ensures " (Status: " + IntToString(404) + ")" == " (Status: 404)"
  {
    assert NatToString(4) == "4" && NatToString(40) == "40";
  }
}
