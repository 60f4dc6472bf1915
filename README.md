# BreatheEasy core in Dafny

BreatheEasy reports and forecasts the air quality of Indian cities. This project models its core
and proves properties of the model:

- **AQI calculation** (`Calculator`): the CPCB breakpoint tables for seven pollutants, the
  per-pollutant sub-index by linear interpolation and Python's `round`, and the overall AQI as
  the largest sub-index.
- **AQI categories** (`AqiInfo`): the six-level scale from Good to Severe, with its range texts
  parsed as the source parses them. The lookup covers the values above the top of the scale.
- **Health risks** (`Interpreter`): the pollutant threshold tables, sorted by threshold in
  descending order, and the highest reached risk message per pollutant.
- **Exceptions** (`Exceptions`): the application's exception hierarchy, including multiple
  inheritance, which sets each class's ancestors. It also gives the messages the API errors
  build.
- **AQICN client** (`AqicnClient`): `get_city_aqi_data` and the two wrappers that report the
  current AQI and the current pollutant risks of a city. This covers every HTTP, JSON and
  status branch and the exception classes the wrappers catch.
- **WeatherAPI client** (`WeatherClient`): `get_current_weather` and its error-code table.
- **Historical data** (`Historical`): loading and caching the master table once, rebuilding
  its `City` column from the one-hot `City_*` columns and indexing it by date. It also covers
  the three dashboard queries: the available cities, a city's AQI trend and its AQI
  distribution.
- **Training** (`Train`, with `Frames` and `ProphetModels`): loading the data, preparing each
  city's Prophet history (sorted by day, missing values forward- then backward-filled),
  fitting, and saving one model file per city.
- **Forecasting** (`Predictor`): the model cache, the forecast window after the last training
  day, and the residual correction, which decays geometrically from today's observed AQI.
  It also covers the formatting for the UI and the weekly risk list.

Python built-ins the code relies on are modelled once, in `PyText`, `PyNum`, `PyJson` and
`Http`: `str.strip` and `split`, `round`, `int()`, `float()`, `dict.get`, truthiness, and
`requests`' outcomes.

The two module-level caches become classes whose fields the methods update:
`Predictor.ModelRegistry` for `_loaded_models_cache` and `Historical.HistoricalStore` for
`_df_master_cached`. Each counts its storage reads, so the contracts can state that a cached
answer does not touch storage. The source's own loops are methods with loop invariants, each
proved against a function that states its meaning. These are the pollutant loop of
`Calculator.CalculateAqiFromPollutants`, both loops of `Interpreter.InterpretPollutantRisks` and
`Interpreter.HighestRiskFound`, and the residual list of `Predictor.DecayingResiduals`. They also
include the row loops of `Predictor.FormatForecastForUi` and `Predictor.DayRisks`, and the city
loop of `Train.TrainAll`. Library calls that hide their iteration are recursive functions with
lemmas about them. These are `sorted`, `sort_values`, `ffill`/`bfill` and the row filters
(`Interpreter.SortByThresholdDesc`, `Frames.SortByDay`, `Frames.FillMissing`, `Frames.Select`).

The outside world becomes parameters:
- each HTTP request is a `transport` function from URL to `Http.Response`;
- reading the CSV file is a `Frames.CsvRead` value;
- the models directory is a map from file name to `ProphetModels.StoredFile`;
- Prophet's fitting is a `fit` function, and a failing file write is a `writeError` function;
- today's date is a day number `today`;
- the API token and base URL are `Option<string>` and `string` arguments;
- the residual decay factor is the argument `decay`; its configured default is
  `Predictor.RESIDUAL_DECAY_FACTOR`;
- the live AQI lookup the predictor makes is `liveAqi`; `Predictor.LiveClient` builds it from
  the AQICN client's settings.

Where the code and its documentation or tests disagree, the model follows the code:
- the decay of the correction starts at the power 0, so the first forecast day gets the full
  residual (`Predictor.DecayStartsAtFirstDay`);
- the decay factor is not validated;
- `get_aqi_info` returns `None` for values such as 100.4 and 100.5 that fall between two
  integer ranges of the scale (`AqiInfo.FractionsBetweenRangesUnclassified`), although the
  tests expect a category;
- `get_current_weather` raises `APIKeyError`, `APIError` and the other errors where its tests
  expect `None`;
- since requests 2.27, `requests.exceptions.JSONDecodeError` is also a `RequestException`.
  An undecodable body therefore reaches the `RequestException` handler of both clients, and
  the model keeps that as a flag on `Http.Body.Undecodable`.

## Model

| member | source | states |
|---|---|---|
| Calculator.BreakpointsFor | src/health_rules/calculator.py:10-18 | each of the seven pollutant keys has a table of six ranges; any other key has none |
| Calculator.TableWellFormed | src/health_rules/calculator.py:10-18 | every table starts at concentration 0 and AQI 0, is open above its last range, and its ranges rise with gaps between them while the AQI ranges join up |
| Calculator.Pm10WellFormed | src/health_rules/calculator.py:11 | the PM10 table is well formed |
| Calculator.Pm25WellFormed | src/health_rules/calculator.py:12 | the PM2.5 table is well formed |
| Calculator.No2WellFormed | src/health_rules/calculator.py:13 | the NO2 table is well formed |
| Calculator.O3WellFormed | src/health_rules/calculator.py:14 | the O3 table is well formed |
| Calculator.CoWellFormed | src/health_rules/calculator.py:15 | the CO table is well formed |
| Calculator.So2WellFormed | src/health_rules/calculator.py:16 | the SO2 table is well formed |
| Calculator.Nh3WellFormed | src/health_rules/calculator.py:17 | the NH3 table is well formed |
| Calculator.ChainedNonDegenerate | src/health_rules/calculator.py:31 | no range of a chained table is a single point, so the interpolation never divides by zero; every range but the last is finite |
| Calculator.ChainedAscending | src/health_rules/calculator.py:10-18 | a later range starts above the end of an earlier one, in concentration and in AQI |
| Calculator.FirstHolding | src/health_rules/calculator.py:28-29 | the loop stops at a range that holds the value, and finds none only when no range from there on holds it |
| Calculator.FirstHoldingIsTheHoldingRange | src/health_rules/calculator.py:28-32 | in a chained table the loop stops at exactly the range that holds the value |
| Calculator.InterpolateEndpoints | src/health_rules/calculator.py:31 | the low end of a finite range maps to its low AQI and the high end to its high AQI |
| Calculator.InterpolateWithin | src/health_rules/calculator.py:31 | inside a range the interpolation stays between the range's two AQI values; in the open top range it is the range's low AQI |
| Calculator.SubIndexInRange | src/health_rules/calculator.py:28-32 | the sub-index of a value lies in the AQI range of the range holding it and hits that range's ends at its ends |
| Calculator.SubIndexNoneIff | src/health_rules/calculator.py:28-33 | there is no sub-index exactly when no range holds the value, in particular for every negative value |
| Calculator.SubIndexBounded | src/health_rules/calculator.py:28-33 | every sub-index lies between 0 and 500 |
| Calculator.CalculateSubIndex | src/health_rules/calculator.py:20-26 | a missing value or a pollutant with no table gives `None` |
| Calculator.SubIndexMeaning | src/health_rules/calculator.py:20-33 | a sub-index exists exactly when the value is present, the lower-cased pollutant has a table and some range holds the value; it lies in 0..500; the pollutant name is case-insensitive |
| Calculator.Pm25Examples | tests/health_rules/test_calculator.py:28-32 | PM2.5 at 75 gives 149; at 300, above the last closed range, it gives 401 |
| Calculator.CoExamples | tests/health_rules/test_calculator.py:39 | CO at 1.5 gives 73; CO at 1.05, in the gap between two ranges, gives `None` |
| Calculator.RejectedExamples | tests/health_rules/test_calculator.py:44-45 | PM10 at -10 and the unknown pollutant "xyz" give `None` |
| Calculator.SubIndices | src/health_rules/calculator.py:39-47 | the collected sub-indices are exactly those of the mapped columns that yield one |
| Calculator.MaxOf | src/health_rules/calculator.py:52 | `max` returns an element that no element exceeds |
| Calculator.CalculateAqiFromPollutants | src/health_rules/calculator.py:35-52 | `None` exactly when no mapped column yields a sub-index; otherwise the result is one column's sub-index and at least every other one |
| AqiInfo.RangesOf | src/health_rules/info.py:59-62 | one parsed bound pair, or none, per category of the scale, in scale order |
| AqiInfo.RangeText | src/health_rules/info.py:29-36 | the range text of category `k` is its low and high bound written in decimal and joined by "-" |
| AqiInfo.RangeParses | src/health_rules/info.py:61-62 | such a text contains "-", splits into the two numerals and parses back to the two bounds |
| AqiInfo.ScaleRangeAt | src/health_rules/info.py:29-36 | category `k` parses to the bounds 0-50, 51-100, 101-200, 201-300, 301-400 or 401-500 |
| AqiInfo.ScaleIsContiguous | src/health_rules/info.py:29-36 | the parsed ranges run from 0 to 500 with no integer gap: each starts one after the previous one ends |
| AqiInfo.ScanFrom | src/health_rules/info.py:59-64 | the loop returns the first category whose parsed range holds the value, skipping unparsable ones, and none when no range holds it |
| AqiInfo.AboveTop | src/health_rules/info.py:70-75 | the only category the fallback can return is the last one |
| AqiInfo.AboveTopOfScale | src/health_rules/info.py:70-75 | on the CPCB scale the fallback returns "Severe" exactly for values above 500 |
| AqiInfo.LookupIn | src/health_rules/info.py:58-83 | whatever the lookup returns is a category of the scale |
| AqiInfo.LookupSpelled | src/health_rules/info.py:58-83 | on a six-category scale whose ranges parse contiguously, a covered value gets its covering category and any other value the fallback's answer |
| AqiInfo.GetAqiInfo | src/health_rules/info.py:39-83 | a category is returned only for a non-negative number, and it is one of the scale |
| AqiInfo.GetAqiInfoOfNumber | src/health_rules/info.py:54-83 | `None` for a negative number; the covering category for a value inside a range; "Severe" above 500; `None` otherwise |
| AqiInfo.ClassifiedIff | src/health_rules/info.py:54-83 | a number is classified exactly when it is non-negative and either above 500 or inside one of the six ranges |
| AqiInfo.CategoryIndex | src/health_rules/info.py:29-36 | the category position of an integer AQI is one of the six |
| AqiInfo.CoveringIndex | src/health_rules/info.py:63 | the position of the range holding a value, or 6 exactly when no range holds it |
| AqiInfo.ExactlyOneCategory | src/health_rules/info.py:29-36 | each integer from 0 to 500 lies in exactly one parsed range, the one `CategoryIndex` names |
| AqiInfo.ClassifiesNonNegativeIntegers | src/health_rules/info.py:54-75 | every non-negative integer gets the category `CategoryIndex` names, and its level is the CPCB level of that integer |
| AqiInfo.IntegerCovering | src/health_rules/info.py:59-75 | an integer up to 500 is covered by its category's range; one above 500 by none, and it falls to "Severe" |
| AqiInfo.LevelNames | src/health_rules/info.py:29-36 | the level names of the scale are Good, Satisfactory, Moderate, Poor, Very Poor and Severe, in order |
| AqiInfo.FractionsBetweenRangesUnclassified | src/health_rules/info.py:59-83 | 100.4 and 100.5 fall between the ranges 51-100 and 101-200 and get `None` |
| Interpreter.Levels | src/health_rules/interpreter.py:23-60 | each pollutant has four levels: Severe, Very Poor, Poor and Moderate |
| Interpreter.Insert | src/health_rules/interpreter.py:96 | inserting a level keeps every level and adds the new one, as a multiset |
| Interpreter.SortByThresholdDesc | src/health_rules/interpreter.py:96 | `sorted(..., reverse=True)` is a permutation of the levels |
| Interpreter.InsertKeepsOrder | src/health_rules/interpreter.py:96 | inserting into levels ordered by falling threshold keeps them ordered |
| Interpreter.SortIsOrdered | src/health_rules/interpreter.py:96 | the sorted levels have falling thresholds |
| Interpreter.SortKeepsLevels | src/health_rules/interpreter.py:96 | a level is in the sorted list exactly when it is in the original one |
| Interpreter.InsertLowest | src/health_rules/interpreter.py:96 | a level with a threshold no higher than all others goes at the end |
| Interpreter.SortOfDecreasing | src/health_rules/interpreter.py:96 | levels already in strictly falling order are left as they are |
| Interpreter.TableIsSorted | src/health_rules/interpreter.py:23-60 | every pollutant's levels are listed from the highest threshold down, so sorting leaves them unchanged |
| Interpreter.FirstReached | src/health_rules/interpreter.py:96-100 | the inner loop stops at the first level whose threshold the value reaches, and finds none only if it reaches none |
| Interpreter.Message | src/health_rules/interpreter.py:98 | the warning text is never empty |
| Interpreter.RiskOf | src/health_rules/interpreter.py:91-105 | a warning is produced only for a pollutant entry that is a dict with a "v" whose `float()` succeeds |
| Interpreter.HighestRiskFound | src/health_rules/interpreter.py:95-100 | the inner loop's result is the warning of the highest level the value reaches |
| Interpreter.RiskForValueIsHighestReached | src/health_rules/interpreter.py:95-102 | a warning exists exactly when the value reaches some threshold, and it is the warning of a reached level with the highest threshold |
| Interpreter.Contributions | src/health_rules/interpreter.py:90-107 | one outcome, warning or none, per pollutant of the table |
| Interpreter.Kept | src/health_rules/interpreter.py:101-102 | the kept warnings are no more than the outcomes |
| Interpreter.KeptInOrder | src/health_rules/interpreter.py:90-107 | the warnings appear in table order, one for every pollutant that yields one, and each is that pollutant's warning |
| Interpreter.NothingKept | src/health_rules/interpreter.py:101-102 | with no pollutant yielding a warning the list is empty |
| Interpreter.ExpectedRisksIn | src/health_rules/interpreter.py:85-110 | at most one warning per pollutant of the table |
| Interpreter.InterpretPollutantRisks | src/health_rules/interpreter.py:62-110 | the loop returns exactly `ExpectedRisksIn`: for each pollutant of the table, in table order, the message of its highest reached threshold; at most one per pollutant |
| Interpreter.NoWarningsForInvalidInput | src/health_rules/interpreter.py:86-88 | a falsy input or one that is not a dict gives no warnings |
| Interpreter.UnknownPollutantIgnored | src/health_rules/interpreter.py:90-91 | adding or changing a key that is not a pollutant of the table changes nothing |
| Interpreter.Pm25Reached | src/health_rules/interpreter.py:24-29 | a PM2.5 value reaches Severe from 251, Very Poor from 121, Poor from 91, Moderate from 61, and nothing below 61 |
| Interpreter.Pm25Examples | tests/health_rules/test_interpreter.py:70-97 | PM2.5 at 61 is Moderate, at 130 Very Poor, and at 60.9 gives no warning |
| Interpreter.ModerateMessage | tests/health_rules/test_interpreter.py:80-90 | the Moderate PM2.5 warning reads "PM25 (Moderate): " followed by the risk text |
| Interpreter.HighIsNotANumber | tests/health_rules/test_interpreter.py:113-125 | the value "high" fails `float()`, so that pollutant is skipped |
| Exceptions.Bases | src/exceptions.py:11-71 | each class has at most two direct bases, each earlier in the hierarchy |
| Exceptions.Ancestors | src/exceptions.py:11-71 | a class's method resolution order contains the class itself and `Exception` |
| Exceptions.AncestorsFollowBases | src/exceptions.py:11-71 | a class's ancestors are the class and the ancestors of its declared bases, and nothing else |
| Exceptions.ApplicationClassesAreBreatheEasy | src/exceptions.py:11-71 | the custom classes are exactly the subclasses of `BreatheEasyError`, and every class is an `Exception` |
| Exceptions.ApiErrorClasses | src/exceptions.py:31-56 | the subclasses of `APIError` are exactly it and its key, rate-limit, not-found and timeout variants |
| Exceptions.SecondBases | src/exceptions.py:17-27 | the second bases count: `APITimeoutError` is a `TimeoutError`, and the missing-data and missing-model errors are `FileNotFoundError`s |
| Exceptions.FileNotFoundIsNoValueError | src/exceptions.py:17-27 | a missing file is not caught as a `ValueError` |
| Exceptions.ApiMessage | src/exceptions.py:36 | the message is "<service> API Error: <message>", followed by " (Status: <code>)" exactly when the status code is truthy |
| Exceptions.StatusSuffixIffTruthy | src/exceptions.py:36 | the status suffix is present if and only if the status code is neither `None` nor 0 |
| Exceptions.NewApiError | src/exceptions.py:33-36 | `APIError` keeps its status code and service and formats its message |
| Exceptions.NewApiKeyError | src/exceptions.py:40-41 | `APIKeyError` always carries status 401 |
| Exceptions.NewApiRateLimitError | src/exceptions.py:45-46 | `APIRateLimitError` always carries status 429 |
| Exceptions.NewApiNotFoundError | src/exceptions.py:50-51 | `APINotFoundError` always carries status 404 |
| Exceptions.NewApiTimeoutError | src/exceptions.py:55-56 | `APITimeoutError` has no status code and no status suffix |
| Exceptions.ApiKeyErrorText | src/exceptions.py:40-41 | its text ends in " (Status: 401)" |
| Exceptions.ApiRateLimitErrorText | src/exceptions.py:45-46 | its text ends in " (Status: 429)" |
| Exceptions.ApiNotFoundErrorText | src/exceptions.py:50-51 | its text ends in " (Status: 404)" |
| Exceptions.DefaultApiErrorText | src/exceptions.py:33-36 | with the defaults the text is "Unknown API Error: <message>" |
| AqicnClient.ApiUrl | src/api_integration/client.py:96 | the request URL is the base URL, "/", the city query and "/?token=" followed by the token |
| AqicnClient.RequestError | src/api_integration/client.py:129-131 | any other request failure raises a plain `APIError` of the AQICN service without a status |
| AqicnClient.HttpErrorFor | src/api_integration/client.py:121-128 | an HTTP error raises `APIKeyError` for 401, `APINotFoundError` for 404 and `APIError` with the status otherwise |
| AqicnClient.StatusOutcome | src/api_integration/client.py:105-117 | status "ok" returns the body; an "error" status mentioning an unknown station returns `None`; other statuses raise `APIError`; a body that is not a dict fails on `.get` |
| AqicnClient.GetCityAqiData | src/api_integration/client.py:80-135 | a missing token raises `APIKeyError` with status 401 and a missing base URL raises `ConfigError`, both before any request |
| AqicnClient.NoRequestWithoutConfiguration | src/api_integration/client.py:87-94 | without a token or a base URL the network makes no difference to the outcome |
| AqicnClient.OnlyTheFeedUrlIsRequested | src/api_integration/client.py:96-100 | the outcome depends only on the answer to the one feed URL |
| AqicnClient.FeedReturnedIffStatusOk | src/api_integration/client.py:99-107 | the feed is returned exactly when the response has no error status, decodes to a dict and its status is "ok", and it is then the decoded body |
| AqicnClient.NoneIffUnknownStation | src/api_integration/client.py:108-113 | `None` is returned exactly for a decoded dict with status "error" whose reason mentions "Unknown station" |
| AqicnClient.HttpStatusErrors | src/api_integration/client.py:121-128 | an error status raises an exception carrying that status: `APIKeyError` exactly for 401, `APINotFoundError` exactly for 404 |
| AqicnClient.TimeoutRaisesApiTimeoutError | src/api_integration/client.py:118-120 | a timeout raises `APITimeoutError`, which is both an `APIError` and a `TimeoutError`, without status |
| AqicnClient.UndecodableBody | src/api_integration/client.py:129-135 | an undecodable body raises `ValueError`, or `APIError` when the decoder's error is a `RequestException` |
| AqicnClient.FailuresAreHandled | src/api_integration/client.py:167-172 | every exception `get_city_aqi_data` raises is caught by the wrappers' handled tuple, except the `AttributeError` of a body that is not a dict |
| AqicnClient.RaisedClasses | src/api_integration/client.py:80-135 | the classes that can be raised are `APIKeyError`, `ConfigError`, `APITimeoutError`, `APINotFoundError`, `APIError`, `ValueError` and `AttributeError` |
| AqicnClient.HandledIffNotAttributeError | src/api_integration/client.py:167 | of those classes the handled tuple catches all but `AttributeError` |
| AqicnClient.ExtractCity | src/api_integration/client.py:139-141 | the extracted city contains no comma |
| AqicnClient.ExtractCityOfPair | src/api_integration/client.py:139-141 | "City,Country" gives the stripped city, and a name without a comma is only stripped |
| AqicnClient.ExtractCityIdempotent | src/api_integration/client.py:139-141 | extracting a second time changes nothing |
| AqicnClient.CurrentAqiError | src/api_integration/client.py:143-145 | the error dict has no AQI, no time, the given station and the message |
| AqicnClient.CurrentAqiHandled | src/api_integration/client.py:167-172 | a handled exception is reported as "API Error: " and its text, any other as "Unexpected internal error." |
| AqicnClient.FeedData | src/api_integration/client.py:156 | the feed's "data" field, or an empty dict without one |
| AqicnClient.ReadCurrentAqi | src/api_integration/client.py:156-165 | an AQI is reported only when the station reports one that is not blank or "-", and it is `int()` of that value; otherwise "AQI value not reported by station." |
| AqicnClient.CurrentAqiFrom | src/api_integration/client.py:151-172 | an AQI is present exactly when there is no error; it needs a feed; an unknown station reports "Station not found by AQICN." with station "Unknown station" |
| AqicnClient.GetCurrentAqiForCity | src/api_integration/client.py:147-172 | the answer is for the extracted city and carries either an AQI or an error, never both |
| AqicnClient.CurrentAqiIsTheFeedValue | src/api_integration/client.py:156-165 | a reported AQI is the `int()` of the feed's reported "aqi" value |
| AqicnClient.FailureReported | src/api_integration/client.py:167-172 | a failed request is reported with the handled or the internal-error message |
| AqicnClient.MissingTokenReported | src/api_integration/client.py:87-90 | without a token the answer has no AQI and reports the `APIKeyError` text |
| AqicnClient.PollutantRisksError | src/api_integration/client.py:175-176 | the error dict has no time, an empty pollutant dict, no risks and the message |
| AqicnClient.PollutantRisksHandled | src/api_integration/client.py:197-202 | a handled exception is reported as "API Error: " and its text, any other as "Unexpected internal error." |
| AqicnClient.ReadPollutantRisks | src/api_integration/client.py:187-196 | with truthy "iaqi" and time the risks are the interpreter's warnings for "iaqi"; otherwise "Pollutant data or timestamp missing." |
| AqicnClient.PollutantRisksFrom | src/api_integration/client.py:182-202 | with no error the risks are the interpreter's warnings for the reported pollutants; on any error there are no risks and no time |
| AqicnClient.GetCurrentPollutantRisksForCity | src/api_integration/client.py:178-202 | the answer is for the extracted city, its risks are those of its pollutants or empty on error, and there is at most one per pollutant |
| WeatherClient.HttpErrorFor | src/api_integration/weather_client.py:171-178 | an HTTP error raises `APIKeyError` for 401, `APINotFoundError` for 404 and `APIError` otherwise (403 included), each carrying the status |
| WeatherClient.ApiErrorOutcome | src/api_integration/weather_client.py:136-147 | an error payload with code 1006 returns `None`; the key error codes raise `APIKeyError`; any other code raises `APIError`; an error entry that is not a dict fails on `.get` |
| WeatherClient.ExtractWeather | src/api_integration/weather_client.py:149-163 | all fourteen fields are tied to their keys: "temp_c", "feelslike_c", "humidity", "pressure_mb", "wind_kph", "wind_dir", "uv" (as the UV index) and "last_updated" of "current"; "text" and "icon" of "condition"; "name" (as the city), "region", "country" and "localtime" of "location". An absent key gives `None` |
| WeatherClient.PayloadOutcome | src/api_integration/weather_client.py:136-165 | a record is returned only for a dict payload without "error", `None` only for one with "error"; a payload that is not a dict raises |
| WeatherClient.GetCurrentWeather | src/api_integration/weather_client.py:116-125 | a missing key raises `APIKeyError` with status 401 and a missing base URL raises `ConfigError`, both before any request |
| WeatherClient.OnlyTheCityIsRequested | src/api_integration/weather_client.py:127-131 | the outcome depends only on the answer to the one request for the city, with `aqi=no` |
| WeatherClient.NoneIffCityNotFound | src/api_integration/weather_client.py:136-143 | `None` is returned exactly when a decoded dict carries an "error" dict whose code equals 1006 |
| WeatherClient.RecordFromPayload | src/api_integration/weather_client.py:149-165 | without "error" a record is returned exactly when "current", "location" and the condition are dicts or absent, and it holds the location's name and the current temperature |
| WeatherClient.KeyErrorCodes | src/api_integration/weather_client.py:144-145 | each of the codes 2006, 2007, 2008, 1002, 1003 and 1005 raises `APIKeyError` with status 401 |
| WeatherClient.CityNotFoundCode | src/api_integration/weather_client.py:141-143 | code 1006, as an integer or as the float 1006.0, returns `None` |
| WeatherClient.HttpStatusErrors | src/api_integration/weather_client.py:171-178 | an error status raises an exception carrying it: `APIKeyError` exactly for 401, `APINotFoundError` exactly for 404 |
| WeatherClient.TransportFailures | src/api_integration/weather_client.py:167-182 | a timeout raises `APITimeoutError` and any other request failure `APIError`, both without status |
| WeatherClient.UndecodableBody | src/api_integration/weather_client.py:179-186 | an undecodable body raises `ValueError`, or `APIError` when the decoder's error is a `RequestException` |
| Frames.Select | src/modeling/train.py:159 | a row filter followed by a projection gives at most one element per row |
| Frames.SelectMembers | src/modeling/train.py:159 | the selected elements are exactly the projections of the rows the filter keeps |
| Frames.SelectInOrder | src/modeling/train.py:159 | the k-th selected element is the projection of a kept row, through a strictly increasing index map that covers every kept row |
| Frames.ColumnCells | src/modeling/train.py:166-169 | the column holds the cell of every row, in row order |
| Frames.CityColumns | src/modeling/train.py:128 | the city columns are exactly the columns whose name starts with "City_" |
| Frames.RemoveAll | src/modeling/train.py:135 | `str.replace` with an empty replacement never lengthens the text |
| Frames.RemoveAllAbsent | src/modeling/train.py:135 | a text without the pattern is left as it is |
| Frames.CityOfColumn | src/modeling/train.py:135 | removing "City_" from "City_<name>" gives the name back when the name does not itself contain "City_" |
| Frames.Positive | src/modeling/train.py:135 | `row[city_col] > 0` is true only for a positive number, false for a non-positive or missing one, and raises `TypeError` on text |
| Frames.CityNameOf | src/modeling/train.py:133-136 | `get_city_name` can fail only with the `TypeError` of the comparison |
| Frames.CityIsFirstMarked | src/modeling/train.py:133-135 | a row's city is the name of the first city column marked positive |
| Frames.UnknownWhenNoneMarked | src/modeling/train.py:136 | a row with no city column marked gets "Unknown" |
| Frames.CityColumn | src/modeling/train.py:137 | `df.apply(get_city_name, axis=1)` gives each row's city name, or fails with the error of some row |
| Frames.WithCityColumn | src/modeling/train.py:137 | the new "City" column is appended and each row gets its city name; the index and the other cells are kept |
| Frames.CityReconstructed | src/modeling/train.py:124-139 | a frame with "City" is returned as it is; with no city columns `ValueError` is raised; otherwise the "City" column is added |
| Frames.InsertByDay | src/modeling/train.py:174 | inserting a row keeps every row and adds it, as a multiset |
| Frames.SortByDay | src/modeling/train.py:174 | sorting by date is a permutation of the rows |
| Frames.InsertKeepsSorted | src/modeling/train.py:174 | inserting into rows sorted by date keeps them sorted |
| Frames.InsertStaysBelow | src/modeling/train.py:174 | inserting into rows whose dates are all at most a bound keeps them so when the new row's date is too |
| Frames.SortByDayIsSorted | src/modeling/train.py:174 | the sorted rows are in date order, missing dates last |
| Frames.PresentUpTo | src/modeling/train.py:169 | the last present value up to a position, or missing only when every value up to it is missing |
| Frames.PresentFrom | src/modeling/train.py:169 | the first present value from a position on, or missing only when every value from it is missing |
| Frames.ForwardFillIsLastPresent | src/modeling/train.py:169 | `ffill()` puts at each position the last present value up to it |
| Frames.BackwardFillIsNextPresent | src/modeling/train.py:169 | `bfill()` puts at each position the first present value from it on |
| Frames.FillMissing | src/modeling/train.py:169 | `ffill().bfill()` keeps the length of the series |
| Frames.FillKeepsPresent | src/modeling/train.py:169 | a present value is never changed by the fill |
| Frames.FillLeavesNothingMissing | src/modeling/train.py:169-170 | when any value is present the fill leaves no position missing |
| Frames.FillOfAllMissing | src/modeling/train.py:169-173 | when every value is missing, every position stays missing |
| Frames.ListRepr | src/analysis/historical.py:146 | the rendering of a list of names is bracketed |
| Frames.MissingColumns | src/analysis/historical.py:143-145 | the missing columns are exactly the required ones the frame lacks, and none is missing exactly when all are there |
| ProphetModels.ModelFilename | src/modeling/train.py:254 | the file name is "<city>_prophet_model_<version>.json", 20 characters longer than the city and version |
| ProphetModels.ModelFilenameInjective | src/modeling/train.py:254 | for cities of the same length, the file name determines the city and the version |
| Train.LoadData | src/modeling/train.py:66-104 | a missing file raises `DataFileNotFoundError`; a date-parsing `ValueError` is re-raised; a read that finds no file raises `DataFileNotFoundError`; the frame is returned exactly when it was read and has a "Date" column |
| Train.ReconstructCityColumn | src/modeling/train.py:106-139 | `None` raises `ValueError`; otherwise the result is `Frames.CityReconstructed`, whose meaning `Train.ReconstructCityColumnMeaning` states |
| Train.ReconstructCityColumnMeaning | src/modeling/train.py:122-139 | a frame with "City" is returned unchanged; without city columns `ValueError` is raised; a rebuilt frame keeps its rows and gives each the name of its first marked city column |
| Train.CityHistory | src/modeling/train.py:159-164 | the city's rows are exactly the rows whose "City" is that city, as ("ds", "y") rows from "Date" and "AQI" |
| Train.CityHistoryInOrder | src/modeling/train.py:159-164 | the city's history keeps the table's row order and multiplicity: its k-th row comes from the k-th matching row, through a strictly increasing index map that covers every matching row |
| Train.WithY | src/modeling/train.py:169 | the rows with "y" replaced by the filled values, one for one |
| Train.PrepareProphetData | src/modeling/train.py:141-176 | `None` raises `ValueError`; a frame without "City" raises `KeyError`; a city without rows raises `ValueError` "No data found for city: <city>"; every failure is a `ValueError` or `KeyError`; a prepared frame has the columns "ds" and "y", at least one row, rows sorted by date and no missing "y" |
| Train.SortedKeepsY | src/modeling/train.py:174 | sorting a permutation of rows with no missing "y" leaves no missing "y" |
| Train.FilledHistory | src/modeling/train.py:166-169 | filling keeps the number of rows |
| Train.FilledHistoryMeaning | src/modeling/train.py:166-173 | the filled rows take the `ffill().bfill()` of the "y" column; some "y" stays missing exactly when every "y" was missing |
| Train.PrepareProphetDataMeaning | src/modeling/train.py:156-176 | for a city with rows, preparation succeeds exactly when some AQI is present, and the prepared rows are a reordering of the filled city rows; when every AQI is missing it raises `ValueError` "Could not fill all missing AQI for <city>." |
| Train.TrainProphetModel | src/modeling/train.py:178-227 | `None` raises `ValueError`; a fit that succeeds returns its model; a failing fit raises `RuntimeError` |
| Train.SaveModel | src/modeling/train.py:229-264 | `None` raises `ValueError`; a failing write raises `RuntimeError`; a successful save stores the model under "<city>_prophet_model_<version>.json" and changes nothing else |
| Train.CityOutcome | src/modeling/train.py:296-306 | a city succeeds only when its data is prepared, the fit returns the model and the write succeeds |
| Train.Succeeded | src/modeling/train.py:291-300 | the successful cities are exactly the target cities whose outcome is a model |
| Train.Failed | src/modeling/train.py:301-306 | the failed cities are exactly the target cities whose outcome is an error |
| Train.EveryCityAccountedFor | src/modeling/train.py:294-306 | each target city lands in exactly one of the two lists, as often as it is listed |
| Train.DirAfter | src/modeling/train.py:294-306 | the models directory only gains files |
| Train.FilenameDeterminesCity | src/modeling/train.py:254 | for one version, two cities with the same model file name are the same city |
| Train.DirAfterStoresModels | src/modeling/train.py:294-306 | after the run, each successful city's file holds its model, and files not named for a target city are untouched |
| Train.MasterData | src/modeling/train.py:280-289 | the master data, when loaded, has a "City" column |
| Train.TrainAll | src/modeling/train.py:267-311 | the run starts exactly when the master data loads; otherwise nothing is trained and nothing is written; once started, the two lists and the directory are those the per-city outcomes determine |
| Historical.HandledIsCaught | src/analysis/historical.py:177 | the errors the query functions handle are exactly those caught by `(DataFileNotFoundError, ValueError, RuntimeError)` |
| Historical.ReadData | src/analysis/historical.py:88-109 | a missing file raises `DataFileNotFoundError`; a date-parsing `ValueError` is re-raised; the frame is returned exactly when it was read and has "Date"; every failure is one the query functions handle |
| Historical.PreprocessingError | src/analysis/historical.py:150-152 | any preprocessing failure is wrapped into a `RuntimeError`, which the query functions handle |
| Historical.IndexedByDate | src/analysis/historical.py:133-135 | the frame is indexed by "Date" and keeps its rows, reordered |
| Historical.Without | src/analysis/historical.py:134 | moving "Date" to the index removes exactly that column |
| Historical.Preprocessed | src/analysis/historical.py:112-152 | preprocessing fails only with a `RuntimeError` |
| Historical.Loaded | src/analysis/historical.py:87-156 | every loading failure is one the query functions handle |
| Historical.LoadedFrameIsIndexed | src/analysis/historical.py:111-156 | a loaded frame is indexed by "Date", sorted by date, has "AQI" and "City" and keeps every row read |
| Historical.NoCityColumnsIsRuntimeError | src/analysis/historical.py:114-119 | without "City" and without city columns the `ValueError` surfaces wrapped in a `RuntimeError` |
| Historical.MissingAqiIsRuntimeError | src/analysis/historical.py:143-152 | a frame without "AQI" fails with the wrapped "Essential columns missing: ['AQI']" |
| Historical.TextLeqTotal | src/analysis/historical.py:176 | any two names compare one way or the other |
| Historical.TextLeqTransitive | src/analysis/historical.py:176 | the name order is transitive |
| Historical.InsertText | src/analysis/historical.py:176 | inserting a name keeps every name and adds it, as a multiset |
| Historical.SortTexts | src/analysis/historical.py:176 | `sorted` is a permutation of the names |
| Historical.InsertTextKeepsSorted | src/analysis/historical.py:176 | inserting into sorted names keeps them sorted |
| Historical.SortTextsIsSorted | src/analysis/historical.py:176 | the sorted names are in order |
| Historical.Unique | src/analysis/historical.py:174 | `unique()` holds each value of the column once and nothing else |
| Historical.ValidCityTexts | src/analysis/historical.py:175 | the kept names are the texts of the present city values other than "Unknown" |
| Historical.ValidCityTextsDistinct | src/analysis/historical.py:174-175 | distinct city values give distinct names |
| Historical.AvailableCities | src/analysis/historical.py:171-176 | a frame without "City" gives no cities |
| Historical.AvailableCitiesMeaning | src/analysis/historical.py:174-176 | the available cities are sorted, each listed once, and are exactly the city names in the data other than "Unknown" |
| Historical.ReadingsOf | src/analysis/historical.py:204-205 | the readings are exactly the date and AQI of the rows of the city |
| Historical.ReadingsInOrder | src/analysis/historical.py:204-205 | the readings keep the table's row order and multiplicity: the k-th reading comes from the k-th row of the city, through a strictly increasing index map that covers every row of the city |
| Historical.CitySeries | src/analysis/historical.py:198-207 | `None` when "City" or "AQI" is missing or the city has no row; otherwise the city's non-empty readings; their order and multiplicity are those of `Historical.ReadingsInOrder` |
| Historical.HistoricalStore.constructor | src/analysis/historical.py:56 | the cache starts empty and nothing has been read |
| Historical.HistoricalStore.LoadAndPreprocessData | src/analysis/historical.py:59-156 | a cached frame is returned without reading unless a reload is forced; otherwise the file is read once and a loaded frame replaces the cache, while a failure leaves it as it was |
| Historical.HistoricalStore.GetAvailableCities | src/analysis/historical.py:160-179 | the available cities of the cached or loaded frame, or [] when loading fails; the cache is filled by a successful first load |
| Historical.HistoricalStore.GetCityAqiTrendData | src/analysis/historical.py:182-210 | the city's readings from the cached or loaded frame, or `None` when loading fails or the city is unknown |
| Historical.HistoricalStore.GetCityAqiDistributionData | src/analysis/historical.py:213-240 | the same readings, or `None` under the same conditions |
| Predictor.ModelPath | src/modeling/predictor.py:93 | the model path ends with the model file name |
| Predictor.LoadOutcome | src/modeling/predictor.py:85-108 | a cached key returns the cached model; otherwise the model loads exactly when its file exists and deserialises; failures are `ModelFileNotFoundError` or `ModelLoadError` |
| Predictor.CacheAfter | src/modeling/predictor.py:89-103 | only a model newly loaded from its file is added to the cache, under its key |
| Predictor.ModelRegistry.constructor | src/modeling/predictor.py:83 | the cache starts empty and no file has been read |
| Predictor.ModelRegistry.LoadProphetModel | src/modeling/predictor.py:85-108 | the result is `LoadOutcome`: the cached model on a hit, otherwise the file's model, `ModelFileNotFoundError` or `ModelLoadError`. The cache gains a successfully loaded model, and storage is read only on a cache miss |
| Predictor.CachedModelIgnoresStorage | src/modeling/predictor.py:89-91 | once a model is loaded, later loads of the same city and version return it whatever the storage holds |
| Predictor.FailedLoadIsNotCached | src/modeling/predictor.py:95-108 | a failed load leaves the cache as it was |
| Predictor.MissingModelFile | src/modeling/predictor.py:95-98 | without the model file `ModelFileNotFoundError` "Model file not found: <path>" is raised |
| Predictor.SavedModelIsLoaded | src/modeling/train.py:254-261 | a model the training step saved under its file name is what a fresh load of that city and version returns |
| Predictor.CacheKeyIsAmbiguous | src/modeling/predictor.py:88 | "New_Delhi" with "v2" and "New" with "Delhi_v2" share a cache key although their model files differ |
| Predictor.ReferenceDay | src/modeling/predictor.py:129-133 | the reference day is today, or the last training day when that is later |
| Predictor.Days | src/modeling/predictor.py:143 | the consecutive days from the first to the last, one per period |
| Predictor.DaysBetweenDays | src/modeling/predictor.py:155 | the days of a run between two bounds are the run from the larger start to the smaller end |
| Predictor.Predicted | src/modeling/predictor.py:150 | one prediction row per day, holding the model's `yhat` and interval with zero residual |
| Predictor.RowsBetweenPredicted | src/modeling/predictor.py:155-156 | selecting prediction rows by date is predicting the selected days |
| Predictor.FutureDaysAre | src/modeling/predictor.py:143-144 | the future frame holds the days after the last training day, one per period |
| Predictor.TargetDaysAre | src/modeling/predictor.py:143-156 | the target slice holds the predictions for the days after the reference day up to today plus `days_ahead` |
| Predictor.SliceOfPrediction | src/modeling/predictor.py:155-156 | the date mask on a run of predictions keeps the predictions of the overlapping days |
| Predictor.ForecastWindowDays | src/modeling/predictor.py:136-160 | a window exists exactly when some day after the reference day falls in the target range; the target and full forecasts are the predictions of their days |
| Predictor.ForecastRowsInWindow | src/modeling/predictor.py:152-156 | every target row is after the last training day and between tomorrow and today plus `days_ahead` |
| Predictor.NoPeriodsNoForecast | src/modeling/predictor.py:136-141 | with no positive number of periods there is no forecast |
| Predictor.ReferencePrediction | src/modeling/predictor.py:175-177 | a prediction for the reference day exists exactly when the full forecast has a row for that day |
| Predictor.ReferencePredictionExists | src/modeling/predictor.py:129-177 | the reference day has a prediction exactly when today is after the last training day, and it is the model's `yhat` for today |
| Predictor.ActualToday | src/modeling/predictor.py:181-191 | a supplied `last_known_aqi` counts when `float()` accepts it; otherwise the live AQI counts when the client reports one |
| Predictor.DecayedResiduals | src/modeling/predictor.py:198-203 | one residual per target row |
| Predictor.DecayingResiduals | src/modeling/predictor.py:198-203 | the loop produces the base residual times the decay factor to the power of each row's position |
| Predictor.NextDecay | src/modeling/predictor.py:203 | multiplying by the decay factor advances its power by one |
| Predictor.Corrected | src/modeling/predictor.py:207-209 | each row keeps its day and model values, takes its residual, and its adjusted value is `yhat` plus the residual clipped at 0 |
| Predictor.ForecastFrom | src/modeling/predictor.py:116-123 | a model that fails to load gives no forecast |
| Predictor.ForecastOfModel | src/modeling/predictor.py:125-231 | a forecast exists exactly when the target window does, with one row per target day |
| Predictor.AdjustedTarget | src/modeling/predictor.py:166-228 | the correction keeps one row per target day |
| Predictor.GenerateForecast | src/modeling/predictor.py:111-231 | the forecast is `ForecastFrom` of the load outcome: `None` when loading fails, else the loaded model's forecast. The cache changes as loading does, and storage is read only on a cache miss |
| Predictor.ForecastWithModel | src/modeling/predictor.py:125-231 | the forecast of a loaded model is `ForecastOfModel`, whose values `CorrectedForecast` and `UncorrectedRowsKeepYhat` state |
| Predictor.CorrectWindow | src/modeling/predictor.py:171-221 | the correction block yields `AdjustedTarget` of today's observed AQI: the target rows unchanged without a prediction for the reference day or an observation, and otherwise corrected by decaying residuals |
| Predictor.ObservedToday | src/modeling/predictor.py:181-191 | today's observed AQI is `ActualToday`: the supplied last known AQI when one is given and `float()` accepts it (no observation when it does not), otherwise the live client's AQI when it reports one |
| Predictor.CorrectedForecast | src/modeling/predictor.py:171-209 | with correction, today after the last training day and an observation, the forecast is the target corrected by the decaying residuals of observation minus today's prediction |
| Predictor.AdjustedWithPrediction | src/modeling/predictor.py:176-209 | with a prediction and an observation the window is corrected by their difference |
| Predictor.CorrectionDecays | src/modeling/predictor.py:194-209 | row k of a corrected forecast keeps its day and `yhat`, has residual base times decay to the power k, and its adjusted value is `yhat` plus that residual clipped at 0 |
| Predictor.UncorrectedRowsKeepYhat | src/modeling/predictor.py:166-228 | without correction, without a prediction for today or without an observation, every row has residual 0 and adjusted value `yhat` |
| Predictor.SuppliedAqiSkipsClient | src/modeling/predictor.py:181-183 | with `last_known_aqi` supplied the live client's answer makes no difference |
| Predictor.MissingTokenMeansNoCorrection | src/modeling/predictor.py:185-191 | without an AQICN token the live client reports no AQI, so no correction is applied |
| Predictor.ResidualsShrink | src/modeling/predictor.py:198-203 | with a decay factor strictly between 0 and 1, each residual is smaller in size than the one before |
| Predictor.UiPoints | src/modeling/predictor.py:237-248 | at most one UI point per row |
| Predictor.FormatForecastForUi | src/modeling/predictor.py:234-248 | no forecast gives []; otherwise the loop yields `UiPoints`: one point per complete row, with the day and the rounded adjusted AQI |
| Predictor.UiPointsOfForecast | src/modeling/predictor.py:238-243 | a complete forecast gives one point per row with its date and its adjusted value rounded half to even, within one half |
| Predictor.IncompleteRowDropped | src/modeling/predictor.py:240-244 | a row missing its date or adjusted value contributes no point |
| Predictor.DayRiskOf | src/modeling/predictor.py:267-284 | each day's entry holds its date and the rounded adjusted AQI |
| Predictor.DayRiskCategory | src/modeling/predictor.py:272-284 | a non-negative predicted AQI gets its CPCB level, colour and implications; a negative one gets "Unknown", "#808080" and "Category undefined." |
| Predictor.CorrectedDayHasCategory | src/modeling/predictor.py:209 | a clipped adjusted value never rounds to a negative AQI, so every forecast day gets a category |
| Predictor.GetPredictedWeeklyRisks | src/modeling/predictor.py:252-289 | no forecast gives []; otherwise one entry per forecast day in order; the model cache and storage reads follow the load |
| Predictor.DayRisks | src/modeling/predictor.py:265-287 | the loop yields one entry per row, in order |
| Predictor.DecayStartsAtFirstDay | src/modeling/predictor.py:198-209 | with base residual 30 and factor 0.85, forecast values 130, 125 and 128 become 160, 150.5 and 149.675: the first day gets the full residual |
| PyNum.RoundHalfEven | src/health_rules/calculator.py:32 | `round` returns an integer within one half of the value, the even one on a tie |
| PyNum.RoundWithin | src/health_rules/calculator.py:32 | rounding a value between two integers stays between them |
| PyNum.ClipLow0 | src/modeling/predictor.py:209 | `clip(lower=0)` returns the value or 0, whichever is larger |
| PyNum.PowShrinks | src/modeling/predictor.py:203 | a decay factor strictly between 0 and 1 makes each power smaller and still positive |
| PyText.StripIdempotent | src/api_integration/client.py:141 | stripping twice is stripping once |
| PyText.StripIsTrimmedSlice | src/api_integration/client.py:141 | the stripped text is a slice of the original that neither starts nor ends with white space |
| PyText.ParseIntOfNatToString | src/health_rules/info.py:72 | `int()` reads back the decimal text of every natural number |
| PyText.ParseDecimalOfInteger | src/health_rules/interpreter.py:93 | every text `int()` accepts, `float()` accepts with the same value |
| PyText.WordIsNoNumber | src/health_rules/interpreter.py:93 | a word that starts with a letter is a `ValueError` for both `int()` and `float()` |
| PyJson.Get | src/api_integration/client.py:156-159 | `.get` on a dict returns the value or the default; on anything else it raises `AttributeError` |
| PyJson.PyInt | src/api_integration/client.py:165 | `int()` keeps an integer, truncates a float, parses decimal text (white space around it, an optional sign, digit groups separated by single `_`), and otherwise raises `ValueError` on text or `TypeError` |
| PyJson.PyFloat | src/health_rules/interpreter.py:93 | `float()` converts integers, floats and decimal text with optional `_` separators, and otherwise raises `ValueError` or `TypeError` |
| Http.Snippet | src/api_integration/client.py:133 | the response snippet is the first 200 characters of the text, or all of it when shorter |

## Left out

- Logging, `dotenv`, reading the configuration file and environment variables, and request timeouts: the settings are arguments, and logging has no effect on results.
- Prophet's internals (fitting, prediction, holidays, JSON serialisation): a fitted model is its last training day and its `yhat`, `yhat_lower` and `yhat_upper` as functions of the day, and fitting is the parameter `fit`.
- Floating point: values are exact reals. NaN and NaT are the cell `Frames.Missing`. Prophet's output is never NaN in the model.
- Date texts and `strftime`: days are integers, and the UI's date string is the day number.
- `PyJson.PyStr`: renders floats that are not integral, lists and dicts as a fixed placeholder instead of Python's `repr`.
- `PyText.ParseDecimal`: accepts signed decimals only, without exponents, `inf` or `nan`, and takes the ASCII digits 0-9 only, not other Unicode decimal digits.
- `PyText.ParseInt`: takes the ASCII digits 0-9 only; Python's `int()` also accepts other Unicode decimal digits, such as Devanagari or Arabic-Indic ones.
- `PyJson.PyInt`: a text of Unicode decimal digits outside 0-9 is a `ValueError` here, as `PyText.ParseInt` states; Python would parse it.
- `PyJson.PyFloat`: the same for `float()`, through `PyText.ParseDecimal`; exponents, `inf` and `nan` are also a `ValueError` here.
- `Frames.ListRepr`: quotes texts without escaping quote characters inside them.
- JSON objects are maps, so the order of their keys is not kept. No result of the core depends on that order.
- `sorted` and `sort_values` are stable insertion sorts. pandas' default `quicksort` is not stable, so the order of rows with the same day can differ.
- `Series.unique` keeps first-occurrence order; the result of `get_available_cities` is sorted, so that order does not matter.
- `str(city)` of a city cell that is not text is a placeholder.
- The length-mismatch branch of the correction (predictor.py lines 211-214) cannot be reached, because the residual list always has one entry per forecast row; `Predictor.Corrected` has no such branch.
- The texts of pandas' `KeyError` messages are approximated, and `os.path.join` is a plain join with "/".
- The call to `get_available_cities` inside the warning of `get_city_aqi_trend_data` (historical.py line 202) only feeds a log message and is not modelled.
- `Predictor.DayRisks`: takes the AQI classifier as a parameter, to which the predictor passes `AqiInfo.GetAqiInfo`.
- `Exceptions.IsSubclass`: uses an explicit table of each class's ancestors (its method resolution order), not Python's class machinery.
- The `__main__` blocks and the import fallbacks of each file.
- The weather client reads every field of the payload the same way; the model keeps the fields the record holds and not their units.
- `Predictor.ForecastOfModel`: states only when a forecast exists and how many rows it has. The row values are stated by `Predictor.CorrectedForecast` and `Predictor.UncorrectedRowsKeepYhat`.
- `Predictor.AdjustedTarget`: states only the number of rows; `Predictor.AdjustedWithPrediction` and `Predictor.CorrectionDecays` state the values.
- `Predictor.ForecastFrom`: states only that a failed load gives no forecast; for a loaded model it is `Predictor.ForecastOfModel`, as `Predictor.CorrectedForecast` uses.
