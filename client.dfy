/**
 * The AQICN client: one request for a city's real-time feed, the mapping of every
 * transport, HTTP and API-level failure to an application exception, and the two
 * wrappers that turn the feed into the dictionaries the dashboard shows, never raising.
 *
 * The token and the base URL, which the source reads from the environment and the
 * configuration file, are parameters; so is the network, as a function from the
 * requested URL to the response.
 */
module AqicnClient {
  import opened Wrappers
  import opened PyText
  import opened Exceptions
  import opened PyJson
  import opened Http
  import opened Interpreter

  const SERVICE: string := "AQICN"

  /** The base URL used when the configuration names none. */
  const DEFAULT_BASE_URL: string := "https://api.waqi.info/feed"

  /** `if not AQICN_TOKEN`: the token is missing or empty. */
  predicate TokenSet(token: Option<string>) {
    token.Some? && token.value != ""
  }

  /** The feed URL for a city query. */
  function ApiUrl(baseUrl: string, query: string, token: string): (url: string)
    ensures StartsWith(url, baseUrl + "/" + query + "/?token=")
    ensures |url| == |baseUrl| + |query| + |token| + 9
  {
    baseUrl + "/" + query + "/?token=" + token
  }

  /** The `APIError` for a `RequestException` other than a timeout or an HTTP error. */
  function RequestError(query: string, reason: string): (e: Exc)
    ensures e.ApiRaised? && e.cls == APIError && e.statusCode == None && e.service == SERVICE
  {
    NewApiError("AQICN request error for '" + query + "': " + reason, None, SERVICE)
  }

  /** The exception raised for an HTTP error status: 401 and 404 have classes of their own. */
  function HttpErrorFor(query: string, status: int): (e: Exc)
    requires RaisesForStatus(status)
    ensures e.ApiRaised? && e.statusCode == Some(status) && e.service == SERVICE
    ensures status == 401 <==> e.cls == APIKeyError
    ensures status == 404 <==> e.cls == APINotFoundError
    ensures status != 401 && status != 404 <==> e.cls == APIError
  {
    if status == 401 then
      NewApiKeyError("AQICN Authorization failed (401) for query '" + query + "'. Check token.", SERVICE)
    else if status == 404 then
      NewApiNotFoundError("AQICN endpoint or city query '" + query + "' not found (404).", SERVICE)
    else
      NewApiError("AQICN HTTP error " + IntToString(status) + " for query '" + query + "'.", Some(status), SERVICE)
  }

  /** The feed reports an unknown station: `"Unknown station" in str(data.get("data", ...))`. */
  predicate UnknownStation(fields: map<string, Json>) {
    Contains(PyStr(GetOr(fields, "data", JStr("Unknown API error reason"))), "Unknown station")
  }

  /** What the feed's `status` field makes of a decoded body: the body, `None`, or an `APIError`. */
  function StatusOutcome(query: string, data: Json): (r: Result<Option<Json>, Exc>)
    ensures r.Err? ==> r.error.cls == APIError || r.error.cls == AttributeError
    ensures r.Err? && r.error.cls == AttributeError <==> !data.JObj?
    ensures r.Ok? && r.value.Some? ==> r.value.value == data && data.JObj?
  {
    match data
    case JObj(fields) =>
      var status := GetOr(fields, "status");
      if status == JStr("ok") then Ok(Some(data))
      else if status == JStr("error") then
        if UnknownStation(fields) then Ok(None)
        else
          var message := GetOr(fields, "data", JStr("Unknown API error reason"));
          Err(NewApiError("AQICN API error: " + PyStr(message), None, SERVICE))
      else
        Err(NewApiError("Received unexpected/missing status from AQICN for '" + query + "': "
                        + PyStr(GetOr(fields, "status", JStr("Status not present"))), None, SERVICE))
    case _ => Err(Raised(AttributeError, "object has no attribute 'get'"))
  }

  /** The `try` block of `get_city_aqi_data` and its `except` clauses, given the response to `url`. */
  function ResponseOutcome(query: string, url: string, response: Response): (r: Result<Option<Json>, Exc>)
  {
    match response
    case TimedOut =>
      Err(NewApiTimeoutError("Request to AQICN API timed out for '" + query + "' at URL " + url + ".", SERVICE))
    case RequestFailed(reason) => Err(RequestError(query, reason))
    case Answered(status, body) =>
      if RaisesForStatus(status) then Err(HttpErrorFor(query, status))
      else
        match body
        case Undecodable(reason, text, isRequestException) =>
          if isRequestException then Err(RequestError(query, reason))
          else Err(Raised(ValueError, "AQICN JSON decoding error for '" + query + "': " + reason
                                      + ". Response snippet: " + Snippet(text)))
        case Decoded(data) => StatusOutcome(query, data)
  }

  /** `get_city_aqi_data`: the feed when its status is "ok", `None` for an unknown station, otherwise an exception. */
  function GetCityAqiData(query: string, token: Option<string>, baseUrl: string, transport: string -> Response)
    : (r: Result<Option<Json>, Exc>)
    ensures !TokenSet(token) ==> r.Err? && r.error.ApiRaised? && r.error.cls == APIKeyError && r.error.statusCode == Some(401)
    ensures TokenSet(token) && baseUrl == "" ==> r.Err? && r.error.cls == ConfigError
    ensures r.Ok? ==> TokenSet(token) && baseUrl != ""
  {
    if !TokenSet(token) then
      Err(NewApiKeyError("AQICN_API_TOKEN not found. Please set it in .env or environment variables.", SERVICE))
    else if baseUrl == "" then
      Err(Raised(ConfigError, "AQICN base URL not found in configuration (config.yaml)."))
    else
      var url := ApiUrl(baseUrl, query, token.value);
      ResponseOutcome(query, url, transport(url))
  }

  /** Without a token or a base URL nothing is requested: the network's behaviour does not matter. */
  lemma NoRequestWithoutConfiguration(query: string, token: Option<string>, baseUrl: string, f: string -> Response, g: string -> Response)
    requires !TokenSet(token) || baseUrl == ""
    ensures GetCityAqiData(query, token, baseUrl, f) == GetCityAqiData(query, token, baseUrl, g)
  {
  }

  /** Only the feed URL of the query is requested: two networks that answer it alike give the same outcome. */
  lemma OnlyTheFeedUrlIsRequested(query: string, token: Option<string>, baseUrl: string, f: string -> Response, g: string -> Response)
    requires TokenSet(token) && baseUrl != ""
    requires f(ApiUrl(baseUrl, query, token.value)) == g(ApiUrl(baseUrl, query, token.value))
    ensures GetCityAqiData(query, token, baseUrl, f) == GetCityAqiData(query, token, baseUrl, g)
  {
  }

  /** The feed is returned exactly when the request is answered with a decodable dict whose status is "ok". */
  lemma FeedReturnedIffStatusOk(query: string, url: string, response: Response)
    ensures var r := ResponseOutcome(query, url, response);
      r.Ok? && r.value.Some? <==>
        && response.Answered? && !RaisesForStatus(response.status)
        && response.body.Decoded? && response.body.data.JObj?
        && GetOr(response.body.data.fields, "status") == JStr("ok")
    ensures var r := ResponseOutcome(query, url, response);
      r.Ok? && r.value.Some? ==> r.value.value == response.body.data
  {
  }

  /** `None` is returned exactly for an "error" status whose reason mentions an unknown station. */
  lemma NoneIffUnknownStation(query: string, url: string, response: Response)
    ensures var r := ResponseOutcome(query, url, response);
      r == Ok(None) <==>
        && response.Answered? && !RaisesForStatus(response.status)
        && response.body.Decoded? && response.body.data.JObj?
        && GetOr(response.body.data.fields, "status") == JStr("error")
        && UnknownStation(response.body.data.fields)
  {
  }

  /** An HTTP error status raises whatever the body holds; the exception carries that status. */
  lemma HttpStatusErrors(query: string, url: string, status: int, body: Body)
    requires RaisesForStatus(status)
    ensures var r := ResponseOutcome(query, url, Answered(status, body));
      && r.Err? && r.error.statusCode == Some(status)
      && (r.error.cls == APIKeyError <==> status == 401)
      && (r.error.cls == APINotFoundError <==> status == 404)
  {
  }

  /** A timeout raises `APITimeoutError`, which is also a `TimeoutError`, and no status. */
  lemma TimeoutRaisesApiTimeoutError(query: string, url: string)
    ensures var r := ResponseOutcome(query, url, TimedOut);
      r.Err? && r.error.cls == APITimeoutError && r.error.statusCode == None
      && IsSubclass(r.error.cls, TimeoutError) && IsSubclass(r.error.cls, APIError)
  {
    SecondBases();
  }

  /** An undecodable body raises `ValueError`, unless the decoder's error is a `RequestException`, which raises `APIError`. */
  lemma UndecodableBody(query: string, url: string, status: int, reason: string, text: string, isRequestException: bool)
    requires !RaisesForStatus(status)
    ensures var r := ResponseOutcome(query, url, Answered(status, Undecodable(reason, text, isRequestException)));
      r.Err? && (r.error.cls == ValueError <==> !isRequestException) && (r.error.cls == APIError <==> isRequestException)
  {
  }

  /** The exception classes the wrappers handle and report as an API error. */
  const HANDLED: seq<ErrorClass> := [APIKeyError, ConfigError, APITimeoutError, APINotFoundError, APIError, ValueError]

  /** Every failure of `get_city_aqi_data` is handled by the wrappers except calling `get` on a body that is not a dict. */
  lemma FailuresAreHandled(query: string, token: Option<string>, baseUrl: string, transport: string -> Response)
    ensures var r := GetCityAqiData(query, token, baseUrl, transport);
      r.Err? ==> (Catches(HANDLED, r.error) <==> r.error.cls != AttributeError)
  {
    var r := GetCityAqiData(query, token, baseUrl, transport);
    if r.Err? {
      RaisedClasses(query, token, baseUrl, transport);
      HandledIffNotAttributeError(r.error);
    }
  }

  /** The classes `get_city_aqi_data` can raise. */
  lemma RaisedClasses(query: string, token: Option<string>, baseUrl: string, transport: string -> Response)
    ensures var r := GetCityAqiData(query, token, baseUrl, transport);
      r.Err? ==> r.error.cls in {APIKeyError, ConfigError, APITimeoutError, APINotFoundError, APIError, ValueError, AttributeError}
  {
    if TokenSet(token) && baseUrl != "" {
      var url := ApiUrl(baseUrl, query, token.value);
      match transport(url)
      case Answered(status, body) =>
        if RaisesForStatus(status) {
          var e := HttpErrorFor(query, status);
          assert e.cls == APIKeyError || e.cls == APINotFoundError || e.cls == APIError;
        }
      case _ =>
    }
  }

  /** Of the classes `get_city_aqi_data` raises, the handlers catch all but `AttributeError`. */
  lemma HandledIffNotAttributeError(e: Exc)
    requires e.cls in {APIKeyError, ConfigError, APITimeoutError, APINotFoundError, APIError, ValueError, AttributeError}
    ensures Catches(HANDLED, e) <==> e.cls != AttributeError
  {
    var c := e.cls;
    if c == AttributeError {
      assert !IsSubclass(AttributeError, APIError) by { ApiErrorClasses(AttributeError); }
      assert forall i | 0 <= i < |HANDLED| :: !IsSubclass(c, HANDLED[i]);
    } else if c == APIKeyError {
      assert IsSubclass(c, HANDLED[0]);
    } else if c == ConfigError {
      assert IsSubclass(c, HANDLED[1]);
    } else if c == APITimeoutError {
      assert IsSubclass(c, HANDLED[2]);
    } else if c == APINotFoundError {
      assert IsSubclass(c, HANDLED[3]);
    } else if c == APIError {
      assert IsSubclass(c, HANDLED[4]);
    } else {
      assert IsSubclass(c, HANDLED[5]);
    }
  }

  /** `city_name_full.split(',')[0].strip()`: the city part of "City, Country". */
  function ExtractCity(cityNameFull: string): (city: string)
    ensures ',' !in city
  {
    Strip(BeforeFirst(cityNameFull, ','))
  }

  /** "City, Country" gives the stripped city; a text without a comma is only stripped. */
  lemma ExtractCityOfPair(city: string, country: string)
    requires ',' !in city
    ensures ExtractCity(city + "," + country) == Strip(city)
    ensures ExtractCity(city) == Strip(city)
  {
    BeforeFirstOfJoin(city, ',', country);
    BeforeFirstWithoutSeparator(city, ',');
  }

  /** Extracting twice changes nothing. */
  lemma ExtractCityIdempotent(cityNameFull: string)
    ensures ExtractCity(ExtractCity(cityNameFull)) == ExtractCity(cityNameFull)
  {
    var c := ExtractCity(cityNameFull);
    ExtractCityOfPair(c, "");
    StripIdempotent(BeforeFirst(cityNameFull, ','));
  }

  /** The dictionary `get_current_aqi_for_city` returns; `error` is absent (`None`) on success. */
  datatype CurrentAqi = CurrentAqi(city: string, aqi: Option<int>, station: Json, time: Json, error: Option<string>)

  /** `_create_error_dict_current_aqi` */
  function CurrentAqiError(city: string, message: string, station: Json := JStr("Error")): (d: CurrentAqi)
    ensures d.city == city && d.aqi == None && d.station == station && d.time == JNull && d.error == Some(message)
  {
    CurrentAqi(city, None, station, JNull, Some(message))
  }

  /** The `except` clauses of the wrapper: handled API errors are reported with their text, anything else generically. */
  function CurrentAqiHandled(city: string, e: Exc): (d: CurrentAqi)
    ensures d.city == city && d.aqi == None && d.station == JStr("Error") && d.error.Some?
    ensures Catches(HANDLED, e) ==> d.error == Some("API Error: " + e.text)
    ensures !Catches(HANDLED, e) ==> d.error == Some("Unexpected internal error.")
  {
    if Catches(HANDLED, e) then CurrentAqiError(city, "API Error: " + e.text)
    else CurrentAqiError(city, "Unexpected internal error.")
  }

  /** The station reported no usable AQI: `None`, or a text that strips to "" or "-". */
  predicate AqiNotReported(aqiRaw: Json) {
    aqiRaw == JNull || Strip(PyStr(aqiRaw)) == "" || Strip(PyStr(aqiRaw)) == "-"
  }

  /** The `AttributeError` of calling `get` on a value that is not a dict. */
  const NO_GET: Exc := Raised(AttributeError, "object has no attribute 'get'")

  /** `full_data_response.get("data", {})`; a feed that is not a dict stands for one whose `get` raises. */
  function FeedData(feed: Json): (apiData: Json)
    ensures feed.JObj? && "data" in feed.fields ==> apiData == feed.fields["data"]
    ensures feed.JObj? && "data" !in feed.fields ==> apiData == JObj(map[])
  {
    if feed.JObj? then GetOr(feed.fields, "data", JObj(map[])) else JNull
  }

  /**
   * Reading the AQI, station name and time out of the feed's `data` dict. A `data`, `city` or
   * `time` entry that is not a dict raises `AttributeError`; `int()` of the AQI may raise.
   */
  function ReadCurrentAqi(city: string, apiData: Json): (r: Result<CurrentAqi, Exc>)
    ensures r.Ok? ==> r.value.city == city
    ensures r.Ok? && r.value.error.None? ==>
      && r.value.aqi.Some?
      && apiData.JObj? && "aqi" in apiData.fields && !AqiNotReported(apiData.fields["aqi"])
      && PyInt(apiData.fields["aqi"]) == Ok(r.value.aqi.value)
    ensures r.Ok? && r.value.error.Some? ==> r.value.aqi.None? && r.value.error == Some("AQI value not reported by station.")
    ensures r.Err? ==> r.error.cls == AttributeError || r.error.cls == ValueError || r.error.cls == TypeError
  {
    match apiData
    case JObj(d) =>
      var aqiRaw := GetOr(d, "aqi");
      var cityInfo := GetOr(d, "city", JObj(map[]));
      var timeInfo := GetOr(d, "time", JObj(map[]));
      if !cityInfo.JObj? || !timeInfo.JObj? then Err(NO_GET)
      else
        var station := GetOr(cityInfo.fields, "name", JStr(city));
        var time := GetOr(timeInfo.fields, "s");
        if AqiNotReported(aqiRaw) then
          Ok(CurrentAqiError(city, "AQI value not reported by station.", station))
        else
          (match PyInt(aqiRaw)
           case Err(e) => Err(e)
           case Ok(aqi) => Ok(CurrentAqi(city, Some(aqi), station, time, None)))
    case _ => Err(NO_GET)
  }

  /** The body of `get_current_aqi_for_city` after the call to `get_city_aqi_data`, given that call's outcome. */
  function CurrentAqiFrom(query: string, outcome: Result<Option<Json>, Exc>): (d: CurrentAqi)
    ensures d.city == query
    ensures d.aqi.Some? <==> d.error.None?
    ensures d.aqi.Some? ==> outcome.Ok? && outcome.value.Some?
    ensures outcome == Ok(None) ==> d.error == Some("Station not found by AQICN.") && d.station == JStr("Unknown station")
    ensures outcome.Err? ==> d.station == JStr("Error")
  {
    match outcome
    case Err(e) => CurrentAqiHandled(query, e)
    case Ok(None) => CurrentAqiError(query, "Station not found by AQICN.", JStr("Unknown station"))
    case Ok(Some(feed)) =>
      match ReadCurrentAqi(query, FeedData(feed))
      case Err(e) => CurrentAqiHandled(query, e)
      case Ok(d) => d
  }

  /** `get_current_aqi_for_city`: never raises; every outcome is either an AQI or an error message. */
  function GetCurrentAqiForCity(cityNameFull: string, token: Option<string>, baseUrl: string, transport: string -> Response)
    : (d: CurrentAqi)
    ensures d.city == ExtractCity(cityNameFull)
    ensures d.aqi.Some? <==> d.error.None?
  {
    var query := ExtractCity(cityNameFull);
    CurrentAqiFrom(query, GetCityAqiData(query, token, baseUrl, transport))
  }

  /** The AQI reported on success is `int()` of the `aqi` entry of the feed's `data`, which is reported. */
  lemma {:induction false} CurrentAqiIsTheFeedValue(query: string, outcome: Result<Option<Json>, Exc>)
    requires CurrentAqiFrom(query, outcome).aqi.Some?
    ensures outcome.Ok? && outcome.value.Some?
    ensures var apiData := FeedData(outcome.value.value);
      && apiData.JObj? && "aqi" in apiData.fields
      && !AqiNotReported(apiData.fields["aqi"])
      && PyInt(apiData.fields["aqi"]) == Ok(CurrentAqiFrom(query, outcome).aqi.value)
  {
    var feed := outcome.value.value;
    var r := ReadCurrentAqi(query, FeedData(feed));
    assert r.Ok? && r.value == CurrentAqiFrom(query, outcome);
  }

  /** A handled failure of the request is reported with its text; any other with a generic message. */
  lemma FailureReported(query: string, e: Exc)
    ensures Catches(HANDLED, e) ==> CurrentAqiFrom(query, Err(e)).error == Some("API Error: " + e.text)
    ensures !Catches(HANDLED, e) ==> CurrentAqiFrom(query, Err(e)).error == Some("Unexpected internal error.")
  {
  }

  /** A missing token is reported, not raised, with the API key message. */
  lemma MissingTokenReported(cityNameFull: string, token: Option<string>, baseUrl: string, transport: string -> Response)
    requires !TokenSet(token)
    ensures var e := GetCityAqiData(ExtractCity(cityNameFull), token, baseUrl, transport).error;
      var d := GetCurrentAqiForCity(cityNameFull, token, baseUrl, transport);
      d.aqi == None && d.error == Some("API Error: " + e.text)
  {
    var e := GetCityAqiData(ExtractCity(cityNameFull), token, baseUrl, transport).error;
    assert IsSubclass(e.cls, HANDLED[0]);
  }

  /** The dictionary `get_current_pollutant_risks_for_city` returns; `error` is absent (`None`) on success. */
  datatype PollutantRisks = PollutantRisks(city: string, time: Json, pollutants: Json, risks: seq<string>, error: Option<string>)

  /** `_create_error_dict_pollutant_risks` */
  function PollutantRisksError(city: string, message: string): (d: PollutantRisks)
    ensures d.city == city && d.time == JNull && d.pollutants == JObj(map[]) && d.risks == [] && d.error == Some(message)
  {
    PollutantRisks(city, JNull, JObj(map[]), [], Some(message))
  }

  /** The `except` clauses of the pollutant wrapper. */
  function PollutantRisksHandled(city: string, e: Exc): (d: PollutantRisks)
    ensures d.city == city && d.risks == [] && d.time == JNull && d.error.Some?
    ensures Catches(HANDLED, e) ==> d.error == Some("API Error: " + e.text)
    ensures !Catches(HANDLED, e) ==> d.error == Some("Unexpected internal error.")
  {
    if Catches(HANDLED, e) then PollutantRisksError(city, "API Error: " + e.text)
    else PollutantRisksError(city, "Unexpected internal error.")
  }

  /** Interpreting the `iaqi` block of the feed's `data` dict when both it and the time stamp are present. */
  function ReadPollutantRisks(city: string, apiData: Json): (r: Result<PollutantRisks, Exc>)
    ensures r.Ok? ==> r.value.city == city
    ensures r.Ok? && r.value.error.None? ==>
      && IsTruthy(r.value.pollutants) && IsTruthy(r.value.time)
      && apiData.JObj? && "iaqi" in apiData.fields && r.value.pollutants == apiData.fields["iaqi"]
      && r.value.risks == ExpectedRisksIn(POLLUTANT_HEALTH_THRESHOLDS, r.value.pollutants)
    ensures r.Ok? && r.value.error.Some? ==>
      r.value.error == Some("Pollutant data or timestamp missing.") && r.value.risks == [] && r.value.time == JNull
    ensures r.Err? ==> r == Err(NO_GET)
  {
    match apiData
    case JObj(d) =>
      var iaqi := GetOr(d, "iaqi");
      var timeInfo := GetOr(d, "time", JObj(map[]));
      if !timeInfo.JObj? then Err(NO_GET)
      else
        var time := GetOr(timeInfo.fields, "s");
        if IsTruthy(iaqi) && IsTruthy(time) then
          Ok(PollutantRisks(city, time, iaqi, ExpectedRisksIn(POLLUTANT_HEALTH_THRESHOLDS, iaqi), None))
        else
          Ok(PollutantRisksError(city, "Pollutant data or timestamp missing."))
    case _ => Err(NO_GET)
  }

  /** The body of `get_current_pollutant_risks_for_city` after the call to `get_city_aqi_data`, given that call's outcome. */
  function PollutantRisksFrom(query: string, outcome: Result<Option<Json>, Exc>): (d: PollutantRisks)
    ensures d.city == query
    ensures d.error.None? ==>
      && outcome.Ok? && outcome.value.Some? && IsTruthy(d.pollutants)
      && d.risks == ExpectedRisksIn(POLLUTANT_HEALTH_THRESHOLDS, d.pollutants)
    ensures d.error.Some? ==> d.risks == [] && d.time == JNull
    ensures outcome == Ok(None) ==> d.error == Some("Station not found by AQICN.")
  {
    match outcome
    case Err(e) => PollutantRisksHandled(query, e)
    case Ok(None) => PollutantRisksError(query, "Station not found by AQICN.")
    case Ok(Some(feed)) =>
      match ReadPollutantRisks(query, FeedData(feed))
      case Err(e) => PollutantRisksHandled(query, e)
      case Ok(d) => d
  }

  /** `get_current_pollutant_risks_for_city`: never raises; risks are reported only with the pollutant data they come from. */
  function GetCurrentPollutantRisksForCity(cityNameFull: string, token: Option<string>, baseUrl: string, transport: string -> Response)
    : (d: PollutantRisks)
    ensures d.city == ExtractCity(cityNameFull)
    ensures d.error.None? ==> d.risks == ExpectedRisksIn(POLLUTANT_HEALTH_THRESHOLDS, d.pollutants) && IsTruthy(d.pollutants)
    ensures d.error.Some? ==> d.risks == [] && d.time == JNull
    ensures |d.risks| <= |POLLUTANT_HEALTH_THRESHOLDS|
  {
    var query := ExtractCity(cityNameFull);
    PollutantRisksFrom(query, GetCityAqiData(query, token, baseUrl, transport))
  }
}
