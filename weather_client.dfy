/**
 * The WeatherAPI client: one request for a city's current weather, the mapping of
 * transport, HTTP and API error codes to application exceptions, and the flat
 * fourteen-entry weather record built from the answer.
 *
 * The API key and the base URL are parameters, and so is the network, as a function
 * from the request to the response.
 */
module WeatherClient {
  import opened Wrappers
  import opened PyText
  import opened Exceptions
  import opened PyJson
  import opened Http

  const SERVICE: string := "WeatherAPI"

  /** The base URL used when the configuration names none. */
  const DEFAULT_BASE_URL: string := "http://api.weatherapi.com/v1/current.json"

  /** `requests.get(base_url, params={'key': ..., 'q': ..., 'aqi': 'no'})` */
  datatype WeatherRequest = WeatherRequest(url: string, key: string, q: string, aqi: string)

  /** The API's error codes for a missing, invalid or disabled key. */
  const KEY_ERROR_CODES: seq<int> := [2006, 2007, 2008, 1002, 1003, 1005]

  /** The API's error code for a location it does not know. */
  const CITY_NOT_FOUND_CODE: int := 1006

  /** `if not WEATHERAPI_KEY`: the key is missing or empty. */
  predicate KeySet(key: Option<string>) {
    key.Some? && key.value != ""
  }

  /** `error_code in [2006, 2007, 2008, 1002, 1003, 1005]`, with Python's `==` between the code and each entry. */
  predicate IsKeyErrorCode(code: Json) {
    exists i | 0 <= i < |KEY_ERROR_CODES| :: EqualsInt(code, KEY_ERROR_CODES[i])
  }

  /** The exception raised for an HTTP error status. */
  function HttpErrorFor(baseUrl: string, status: int): (e: Exc)
    requires RaisesForStatus(status)
    ensures e.ApiRaised? && e.service == SERVICE
    ensures status == 401 <==> e.cls == APIKeyError
    ensures status == 404 <==> e.cls == APINotFoundError
    ensures status != 401 && status != 404 <==> e.cls == APIError
    ensures e.statusCode == Some(status)
  {
    if status == 401 then
      NewApiKeyError("Authorization failed (HTTP 401). Check WEATHERAPI_API_KEY.", SERVICE)
    else if status == 403 then
      NewApiError("Forbidden (HTTP 403). Check API key status/plan limits.", Some(status), SERVICE)
    else if status == 404 then
      NewApiNotFoundError("WeatherAPI endpoint not found (" + baseUrl + ").", SERVICE)
    else
      NewApiError("HTTP error " + IntToString(status), Some(status), SERVICE)
  }

  /** The error entry of the payload: `None` for an unknown city, otherwise the exception it raises. */
  function ApiErrorOutcome(errorInfo: Json): (r: Result<Option<WeatherInfo>, Exc>)
    ensures r.Ok? ==> r.value.None?
    ensures r.Ok? <==> errorInfo.JObj? && EqualsInt(GetOr(errorInfo.fields, "code"), CITY_NOT_FOUND_CODE)
    ensures r.Err? && errorInfo.JObj? ==>
      r.error.ApiRaised? && r.error.service == SERVICE
      && (r.error.cls == APIKeyError <==> IsKeyErrorCode(GetOr(errorInfo.fields, "code")))
      && (r.error.cls == APIError <==> !IsKeyErrorCode(GetOr(errorInfo.fields, "code")))
    ensures !errorInfo.JObj? ==> r.Err? && r.error.cls == AttributeError
  {
    match errorInfo
    case JObj(fields) =>
      var message := GetOr(fields, "message", JStr("Unknown API error"));
      var code := GetOr(fields, "code");
      var text := "WeatherAPI Error Code " + PyStr(code) + ": " + PyStr(message);
      if EqualsInt(code, CITY_NOT_FOUND_CODE) then Ok(None)
      else if IsKeyErrorCode(code) then Err(NewApiKeyError(text, SERVICE))
      else Err(NewApiError(text, None, SERVICE))
    case _ => Err(Raised(AttributeError, "object has no attribute 'get'"))
  }

  /** The dictionary `get_current_weather` returns; each entry is whatever the payload holds there, `None` when absent. */
  datatype WeatherInfo = WeatherInfo(
    tempC: Json, feelslikeC: Json, humidity: Json, pressureMb: Json,
    conditionText: Json, conditionIcon: Json, windKph: Json, windDir: Json,
    uvIndex: Json, city: Json, region: Json, country: Json,
    lastUpdated: Json, localtime: Json)

  /** The record built from the `current`, `current.condition` and `location` dicts of the payload. */
  function ExtractWeather(current: map<string, Json>, condition: map<string, Json>, location: map<string, Json>): (w: WeatherInfo)
    ensures w.tempC == GetOr(current, "temp_c") && w.feelslikeC == GetOr(current, "feelslike_c")
    ensures w.humidity == GetOr(current, "humidity") && w.pressureMb == GetOr(current, "pressure_mb")
    ensures w.windKph == GetOr(current, "wind_kph") && w.windDir == GetOr(current, "wind_dir")
    ensures w.uvIndex == GetOr(current, "uv") && w.lastUpdated == GetOr(current, "last_updated")
    ensures w.conditionText == GetOr(condition, "text") && w.conditionIcon == GetOr(condition, "icon")
    ensures w.city == GetOr(location, "name") && w.region == GetOr(location, "region")
    ensures w.country == GetOr(location, "country") && w.localtime == GetOr(location, "localtime")
  {
    WeatherInfo(
      GetOr(current, "temp_c"), GetOr(current, "feelslike_c"),
      GetOr(current, "humidity"), GetOr(current, "pressure_mb"),
      GetOr(condition, "text"), GetOr(condition, "icon"),
      GetOr(current, "wind_kph"), GetOr(current, "wind_dir"),
      GetOr(current, "uv"), GetOr(location, "name"),
      GetOr(location, "region"), GetOr(location, "country"),
      GetOr(current, "last_updated"), GetOr(location, "localtime"))
  }

  /** An empty dict, the default of every `get` on a nested section. */
  const EMPTY: Json := JObj(map[])

  /**
   * What a decoded payload makes: an error entry decides the outcome; otherwise the record,
   * provided the `current`, `current.condition` and `location` sections are dicts or absent.
   * A payload that is not a dict raises a `TypeError` or an `AttributeError`, as `in`, `[]`
   * and `get` on a list or a text do.
   */
  function PayloadOutcome(data: Json): (r: Result<Option<WeatherInfo>, Exc>)
    ensures r.Ok? && r.value.Some? ==> data.JObj? && "error" !in data.fields
    ensures r == Ok(None) ==> data.JObj? && "error" in data.fields
    ensures !data.JObj? ==> r.Err? && (r.error.cls == TypeError || r.error.cls == AttributeError)
  {
    match data
    case JObj(fields) =>
      if "error" in fields then ApiErrorOutcome(fields["error"])
      else
        var current := GetOr(fields, "current", EMPTY);
        var location := GetOr(fields, "location", EMPTY);
        if !current.JObj? then Err(Raised(AttributeError, "object has no attribute 'get'"))
        else
          var condition := GetOr(current.fields, "condition", EMPTY);
          if !location.JObj? || !condition.JObj? then Err(Raised(AttributeError, "object has no attribute 'get'"))
          else Ok(Some(ExtractWeather(current.fields, condition.fields, location.fields)))
    case JArr(items) =>
      if JStr("error") in items then Err(Raised(TypeError, "list indices must be integers or slices, not str"))
      else Err(Raised(AttributeError, "'list' object has no attribute 'get'"))
    case JStr(s) =>
      if Contains(s, "error") then Err(Raised(TypeError, "string indices must be integers"))
      else Err(Raised(AttributeError, "'str' object has no attribute 'get'"))
    case _ => Err(Raised(TypeError, "argument is not iterable"))
  }

  /** The `try` block of `get_current_weather` and its `except` clauses, given the response. */
  function ResponseOutcome(cityName: string, baseUrl: string, response: Response): (r: Result<Option<WeatherInfo>, Exc>)
  {
    match response
    case TimedOut => Err(NewApiTimeoutError("Request to WeatherAPI timed out for '" + cityName + "'.", SERVICE))
    case RequestFailed(reason) => Err(NewApiError("WeatherAPI network error: " + reason, None, SERVICE))
    case Answered(status, body) =>
      if RaisesForStatus(status) then Err(HttpErrorFor(baseUrl, status))
      else
        match body
        case Undecodable(reason, _, isRequestException) =>
          if isRequestException then Err(NewApiError("WeatherAPI network error: " + reason, None, SERVICE))
          else Err(Raised(ValueError, "WeatherAPI JSON decoding error: " + reason))
        case Decoded(data) => PayloadOutcome(data)
  }

  /** `get_current_weather(city_name)`: the weather record, `None` for an unknown city, otherwise an exception. */
  function GetCurrentWeather(cityName: string, key: Option<string>, baseUrl: string, transport: WeatherRequest -> Response)
    : (r: Result<Option<WeatherInfo>, Exc>)
    ensures !KeySet(key) ==> r.Err? && r.error.ApiRaised? && r.error.cls == APIKeyError && r.error.statusCode == Some(401)
    ensures KeySet(key) && baseUrl == "" ==> r.Err? && r.error.cls == ConfigError
    ensures r.Ok? ==> KeySet(key) && baseUrl != ""
  {
    if !KeySet(key) then
      Err(NewApiKeyError("WEATHERAPI_API_KEY not found in environment variables.", SERVICE))
    else if baseUrl == "" then
      Err(Raised(ConfigError, "WeatherAPI base URL not found in configuration."))
    else
      ResponseOutcome(cityName, baseUrl, transport(WeatherRequest(baseUrl, key.value, cityName, "no")))
  }

  /** Only the one request for the city, with the key and without air quality, is made. */
  lemma OnlyTheCityIsRequested(cityName: string, key: Option<string>, baseUrl: string, f: WeatherRequest -> Response, g: WeatherRequest -> Response)
    requires KeySet(key) && baseUrl != ""
    requires f(WeatherRequest(baseUrl, key.value, cityName, "no")) == g(WeatherRequest(baseUrl, key.value, cityName, "no"))
    ensures GetCurrentWeather(cityName, key, baseUrl, f) == GetCurrentWeather(cityName, key, baseUrl, g)
  {
  }

  /** `None` is returned exactly for an answered request whose payload carries error code 1006. */
  lemma NoneIffCityNotFound(cityName: string, baseUrl: string, response: Response)
    ensures var r := ResponseOutcome(cityName, baseUrl, response);
      r == Ok(None) <==>
        && response.Answered? && !RaisesForStatus(response.status)
        && response.body.Decoded? && response.body.data.JObj?
        && "error" in response.body.data.fields
        && response.body.data.fields["error"].JObj?
        && EqualsInt(GetOr(response.body.data.fields["error"].fields, "code"), CITY_NOT_FOUND_CODE)
  {
  }

  /** A record is returned exactly for a payload without an error entry whose sections are dicts; it holds their entries. */
  lemma {:induction false} RecordFromPayload(fields: map<string, Json>)
    requires "error" !in fields
    ensures var r := PayloadOutcome(JObj(fields));
      var current := GetOr(fields, "current", EMPTY);
      var location := GetOr(fields, "location", EMPTY);
      r.Ok? <==> current.JObj? && location.JObj? && GetOr(current.fields, "condition", EMPTY).JObj?
    ensures var r := PayloadOutcome(JObj(fields));
      r.Ok? ==>
        && r.value.Some? && r.value.value.city == GetOr(GetOr(fields, "location", EMPTY).fields, "name")
        && r.value.value.tempC == GetOr(GetOr(fields, "current", EMPTY).fields, "temp_c")
  {
  }

  /** The key error codes raise `APIKeyError` with status 401, whatever the message. */
  lemma KeyErrorCodes(i: nat, message: Json)
    requires i < |KEY_ERROR_CODES|
    ensures var r := ApiErrorOutcome(JObj(map["code" := JInt(KEY_ERROR_CODES[i]), "message" := message]));
      r.Err? && r.error.cls == APIKeyError && r.error.statusCode == Some(401)
  {
    var code := JInt(KEY_ERROR_CODES[i]);
    assert EqualsInt(code, KEY_ERROR_CODES[i]);
    assert !EqualsInt(code, CITY_NOT_FOUND_CODE);
  }

  /** Error code 1006 gives `None`, also when the payload holds it as a float. */
  lemma CityNotFoundCode(message: Json)
    ensures ApiErrorOutcome(JObj(map["code" := JInt(1006), "message" := message])) == Ok(None)
    ensures ApiErrorOutcome(JObj(map["code" := JFloat(1006.0), "message" := message])) == Ok(None)
  {
  }

  /** An HTTP error status raises whatever the body holds; 401 and 404 have classes of their own, 403 is an `APIError`. */
  lemma HttpStatusErrors(cityName: string, baseUrl: string, status: int, body: Body)
    requires RaisesForStatus(status)
    ensures var r := ResponseOutcome(cityName, baseUrl, Answered(status, body));
      && r.Err? && r.error.statusCode == Some(status)
      && (r.error.cls == APIKeyError <==> status == 401)
      && (r.error.cls == APINotFoundError <==> status == 404)
  {
  }

  /** Transport failures: a timeout raises `APITimeoutError`, any other failure an `APIError` without status. */
  lemma TransportFailures(cityName: string, baseUrl: string, reason: string)
    ensures var r := ResponseOutcome(cityName, baseUrl, TimedOut);
      r.Err? && r.error.cls == APITimeoutError && r.error.statusCode == None
    ensures var r := ResponseOutcome(cityName, baseUrl, RequestFailed(reason));
      r.Err? && r.error.cls == APIError && r.error.statusCode == None
  {
  }

  /** An undecodable body raises `ValueError`, unless the decoder's error is a `RequestException`. */
  lemma UndecodableBody(cityName: string, baseUrl: string, status: int, reason: string, text: string, isRequestException: bool)
    requires !RaisesForStatus(status)
    ensures var r := ResponseOutcome(cityName, baseUrl, Answered(status, Undecodable(reason, text, isRequestException)));
      r.Err? && (r.error.cls == ValueError <==> !isRequestException) && (r.error.cls == APIError <==> isRequestException)
  {
  }
}
