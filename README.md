# Resilient weather bot: a Dafny model of its decision logic

The weather bot is a command-line program. It reads a city name and looks the city
up at the Open-Meteo geocoding service. It then fetches current and daily weather
for the match from the Open-Meteo forecast service and prints a summary. This
project models the pure logic under the network and console plumbing:

- **JSON values** (`json.dfy`): the decoded JSON the program works on. The module
  also gives Python's behaviour for truth testing, `dict.get` with a default, `x[0]`
  and use as a dictionary key.
- **Text** (`text.dfy`): `str.strip()` with Python's set of whitespace characters,
  and the decimal rendering of an `int`. The rendering is proved to read back as
  the same integer.
- **Condition codes** (`wmo.dfy`): `wmo_code_to_text`. It is a table of the
  seventeen WMO weather codes the program lists, plus the fallback
  `"Condition <code>"` for every other code.
- **Network outcomes** (`http.dfy`): `session.get` is reduced to three possible
  endings. It times out, it raises another transport error, or it returns a
  status and a body that may not decode as JSON. The module also defines the
  handling both requests share. The session's `Retry` settings are kept only as
  data.
- **Geocoding** (`geocoding.dfy`): the query `geocode_city` sends, and how it turns
  the reply into a location record from the first match, with a default per field.
- **Forecast** (`forecast.dfy`): the query `get_weather` sends, and how it passes
  the decoded payload on unchanged.
- **Display** (`display.dfy`): the field extraction of `print_weather`, including
  `get_safe_daily`. It yields the value shown on each line, or the exception
  Python raises.
- **Pipeline** (`pipeline.dfy`): `main`. The network is a parameter
  `net: Request -> Response`. A run records the requests it sends and how it
  ends.

A Python step can end badly in two ways, and the model keeps them apart:

- A **failure**: the step prints a message and returns `None`. These are a
  timeout, another transport error, a non-200 status, and a city that was not
  found.
- A **crash**: an exception raised outside any `try`. These are an
  `AttributeError` from `.get` on something that is not a dict, a `TypeError`,
  `KeyError` or `IndexError` from indexing, a `TypeError` from hashing a list or
  dict, and a `JSONDecodeError` from `r.json()`.

A JSON number Python decodes as a `float` is kept as its value, used only for
truth testing and key comparison. It also carries the text `str()` gives it. The
model does no arithmetic on it.

The model keeps four behaviours of the program that may look accidental:

- The missing-wind placeholder stays the literal `"N/h"`. It is not normalised
  to `"N/A"`.
- A match without `latitude` or `longitude` gives a null coordinate, which goes
  into the forecast request as it is. It is not reported as a missing field.
- The extraction defends against absent keys, and `get_safe_daily` also against
  a daily value that is not a non-empty list. It does not defend against a wrongly
  typed section, payload or weather code: if `current` or `daily` is present but
  not a dict, if the payload is a truthy non-dict, or if the weather code is a
  list or dict, the program raises.
- An empty input is rejected in `main`, before `geocode_city` is called.

## Model

| member | source | states |
|---|---|---|
| `Json.Truthy` | Weather_prediction.py:51 | Python's truth test: null, false, zero and empty strings, lists and dicts are falsy; used by `GeocodeNotFoundIff`, `FalsyWeatherStops` and `Finish` |
| `Json.Hashable` | Weather_prediction.py:116 | lists and dicts cannot be dict keys and every other JSON value can; it is the condition under which `ConditionText` and `SummaryOf` raise `TypeError` |
| `Json.Lookup` | Weather_prediction.py:130-134 | `d.get(k, d0)` on a dict: the stored value when the key is present, even null, otherwise the default; its uses are stated by `CurrentDefaults` and `LocationDefaults` |
| `Json.Get` | Weather_prediction.py:50 | `v.get(k, d)` on a dict is the dict's lookup of `k` with default `d`; on anything else it raises `AttributeError` |
| `Json.First` | Weather_prediction.py:55 | `v[0]` yields element 0 of a non-empty list or the first character of a non-empty string; an empty one raises `IndexError`, a dict `KeyError`, a scalar `TypeError` |
| `Text.IsSpace` | Weather_prediction.py:153 | the characters Python's `str.strip()` removes; the trimming lemmas below state what stripping does with them |
| `Text.TrimStart` | Weather_prediction.py:153 | the result is a suffix of the input, all that was cut is whitespace, and it does not start with whitespace |
| `Text.TrimEnd` | Weather_prediction.py:153 | the result is a prefix of the input, all that was cut is whitespace, and it does not end with whitespace |
| `Text.Strip` | Weather_prediction.py:153 | `strip()` is no longer than the line, and a non-empty result neither starts nor ends with whitespace |
| `Text.TrimStartKeeps` | Weather_prediction.py:153 | a character that is not whitespace is never removed from the front |
| `Text.TrimEndKeeps` | Weather_prediction.py:153 | a character that is not whitespace is never removed from the back |
| `Text.StripIsSlice` | Weather_prediction.py:153 | `strip()` yields a contiguous slice of the line, and everything before and after that slice is whitespace |
| `Text.StripEmptyIff` | Weather_prediction.py:153-155 | the stripped line is empty exactly when every character of the line is whitespace |
| `Text.StripIdempotent` | Weather_prediction.py:153 | stripping an already stripped line changes nothing |
| `Text.NatToDecimal` | Weather_prediction.py:116 | `str(n)` is a non-empty string of digits with no leading zero |
| `Text.IntToDecimal` | Weather_prediction.py:116 | `str(i)` begins with a minus sign exactly for negative `i` |
| `Text.NatToDecimalRoundTrip` | Weather_prediction.py:116 | reading the digits of `str(n)` gives `n` back |
| `Text.IntToDecimalRoundTrip` | Weather_prediction.py:116 | reading `str(i)` gives `i` back, negatives included |
| `Text.IntToDecimalInjective` | Weather_prediction.py:116 | two integers with the same decimal text are equal |
| `Wmo.ConditionTable` | Weather_prediction.py:97-115 | the program's `mapping`; `TableCodes` states its keys and the three code-text lemmas its values |
| `Wmo.WmoCodeToText` | Weather_prediction.py:93-116 | every code, in the table or not, gets a non-empty description |
| `Wmo.TableCodes` | Weather_prediction.py:97-115 | the table has exactly the codes 0, 1, 2, 3, 45, 48, 51, 53, 55, 61, 63, 65, 71, 73, 75, 80 and 95 |
| `Wmo.SkyCodeTexts` | Weather_prediction.py:98-103 | codes 0, 1, 2, 3, 45 and 48 translate to their table strings |
| `Wmo.DrizzleAndRainCodeTexts` | Weather_prediction.py:104-109 | codes 51, 53, 55, 61, 63 and 65 translate to their table strings |
| `Wmo.SnowShowerAndStormCodeTexts` | Weather_prediction.py:110-114 | codes 71, 73, 75, 80 and 95 translate to their table strings |
| `Wmo.UnknownCodeText` | Weather_prediction.py:116 | any other integer translates to "Condition " followed by its decimal text |
| `Wmo.Code999Text` | Weather_prediction.py:116 | code 999 translates to "Condition 999" |
| `Wmo.TableTextsAreNotFallbacks` | Weather_prediction.py:97-116 | no table string begins with the fallback prefix "Condition " |
| `Wmo.FallbackRecoversCode` | Weather_prediction.py:116 | an unknown code's text is the prefix followed by text that reads back as the code |
| `Wmo.TableInjective` | Weather_prediction.py:97-115 | no two codes in the table share a description |
| `Wmo.WmoCodeToTextInjective` | Weather_prediction.py:97-116 | two codes with the same description are the same code |
| `Http.Param` | Weather_prediction.py:34 | a parameter has a value exactly when the query names it |
| `Http.ParamAt` | Weather_prediction.py:69-76 | a parameter's value is the one written at its first occurrence in the query |
| `Http.Receive` | Weather_prediction.py:36-47 | a call yields a payload exactly for a 200 reply whose body decodes, and that payload is the body; the only exception it raises is the decoding error |
| `Http.ReceiveOkIff` | Weather_prediction.py:87-91 | a call yields a payload exactly when the reply is a 200 with a decodable body, and the payload is that body |
| `Http.ReceiveNon200` | Weather_prediction.py:45-47 | any status other than 200 is a failure carrying that status, whatever the body |
| `Http.ReceiveTransportFailures` | Weather_prediction.py:36-43 | a timeout and another transport error are reported as different failures |
| `Geocoding.GeocodeRequest` | Weather_prediction.py:33-37 | the lookup request; `GeocodeQuery` states its endpoint, parameters and timeout |
| `Geocoding.LocationOf` | Weather_prediction.py:56-62 | the returned record; `LocationDefaults` states each field and its default |
| `Geocoding.ShapeGeocoding` | Weather_prediction.py:36-62 | `geocode_city` after the request; `GeocodeCallFailures`, `GeocodeNotFoundIff`, `GeocodeFoundShape` and `GeocodeCrashes` state its outcomes |
| `Geocoding.GeocodeCity` | Weather_prediction.py:29-62 | `geocode_city` over the network parameter; `Pipeline.LookUp` and the pipeline lemmas state its use |
| `Geocoding.ShapeResults` | Weather_prediction.py:49-62 | the only failure a 200 body can produce is "not found" for the typed city |
| `Geocoding.GeocodeQuery` | Weather_prediction.py:33-37 | the lookup goes to the search endpoint with name = city, count = 1, language = "en", format = "json", and a 10-second timeout |
| `Geocoding.GeocodeCallFailures` | Weather_prediction.py:36-47 | timeout, other transport error and non-200 status are each reported as such, whatever the body |
| `Geocoding.GeocodeNotFoundIff` | Weather_prediction.py:45-53 | "not found" exactly when a 200 dict body has a `results` that is absent or falsy |
| `Geocoding.GeocodeNoResults` | Weather_prediction.py:50-53 | `results` missing, null or an empty list means "not found" |
| `Geocoding.GeocodeFoundShape` | Weather_prediction.py:49-62 | a location comes only from a 200 whose `results` is a non-empty list headed by a dict, and it is built from that dict |
| `Geocoding.GeocodeFirstMatch` | Weather_prediction.py:55-62 | such a reply always yields the location built from its first match |
| `Geocoding.GeocodeIgnoresLaterMatches` | Weather_prediction.py:55 | matches after the first never change the outcome |
| `Geocoding.LocationDefaults` | Weather_prediction.py:56-62 | name defaults to the typed city, country to "", timezone to "auto", and latitude and longitude to null; present fields are copied as they are |
| `Geocoding.GeocodeCrashes` | Weather_prediction.py:49-59 | an undecodable body, a non-dict body, a truthy `results` that is a dict, a number, a boolean or a string, and a non-dict first match each raise the matching exception |
| `Forecast.ForecastRequest` | Weather_prediction.py:68-79 | the forecast request; `ForecastQueryLocation`, `ForecastQueryFields` and `ForecastQueryHasNoOtherParams` state its contents |
| `Forecast.GetWeather` | Weather_prediction.py:64-91 | `get_weather` over the network parameter; `GetWeatherPassesBodyThrough` and `GetWeatherFailures` state its outcomes |
| `Forecast.ForecastQueryLocation` | Weather_prediction.py:68-79 | the forecast query goes to the forecast endpoint with the given latitude, longitude and timezone and a 10-second timeout |
| `Forecast.ForecastQueryFields` | Weather_prediction.py:72-75 | the query asks for the five current fields and the three daily fields, in the program's order, and for forecast_days = 1 |
| `Forecast.ForecastQueryHasNoOtherParams` | Weather_prediction.py:69-76 | the forecast query has no other parameter |
| `Forecast.ForecastDefaultTimezone` | Weather_prediction.py:64 | without a timezone, the request asks for "auto" |
| `Forecast.GetWeatherPassesBodyThrough` | Weather_prediction.py:87-91 | `get_weather` returns the decoded body, unmodified, exactly when the reply is a 200 |
| `Forecast.GetWeatherFailures` | Weather_prediction.py:78-89 | a timeout, another transport error and a non-200 status are each reported as such |
| `Display.SafeDaily` | Weather_prediction.py:126-128 | `get_safe_daily`; `SafeDailyFirst` and `SafeDailyPlaceholder` state both of its cases |
| `Display.ConditionText` | Weather_prediction.py:134-142 | the condition line raises exactly when the code is a list or dict, and then raises `TypeError`; it never reports a failure |
| `Display.Sections` | Weather_prediction.py:122-123 | the section lookups succeed exactly for a dict payload whose `current` and `daily` are each absent or a dict; otherwise they raise `AttributeError` |
| `Display.SummaryOf` | Weather_prediction.py:130-142 | the extraction from the two sections succeeds exactly when the code is absent or hashable; otherwise it raises `TypeError` |
| `Display.Summarize` | Weather_prediction.py:118-138 | extracting the summary either succeeds or raises; it never reports a failure |
| `Display.SafeDailyFirst` | Weather_prediction.py:126-128 | `get_safe_daily` returns element 0 of a non-empty list |
| `Display.SafeDailyPlaceholder` | Weather_prediction.py:126-128 | `get_safe_daily` returns "N/A" when the key is absent, the list is empty or the value is not a list |
| `Display.SectionsDefaults` | Weather_prediction.py:122-123 | absent `current` and `daily` are empty dicts, present dicts are used as they are, and a non-dict section or payload raises |
| `Display.SummarizeDict` | Weather_prediction.py:118-138 | a dict payload whose sections are absent or dicts is summarised from those sections, each defaulted to an empty dict, without raising at the section lookups |
| `Display.CurrentDefaults` | Weather_prediction.py:130-134 | absent temperature, apparent temperature and humidity show "N/A", absent wind "N/h", an absent code "Clear sky"; present values are shown as they are |
| `Display.DailyValues` | Weather_prediction.py:136-138 | low, high and rain are today's entries of their daily series |
| `Display.SummaryCrashIff` | Weather_prediction.py:130-142 | with dict sections, the extraction raises exactly when the weather code is a list or dict, and then raises `TypeError` |
| `Display.MissingWindOnlyAffectsWind` | Weather_prediction.py:133 | removing the wind speed changes the wind line to "N/h" and nothing else |
| `Display.NoSectionsSummary` | Weather_prediction.py:122-138 | a payload with neither section shows the location, "Clear sky" and placeholders on every other line |
| `Display.ConditionTextCases` | Weather_prediction.py:134-142 | an integer code shows its table text or fallback; True, False and 3.0 act as 1, 0 and 3; None shows "Condition None"; only lists and dicts raise |
| `Pipeline.RunBot` | Weather_prediction.py:149-170 | `main`: it stops for empty input exactly when the line is all whitespace, sending nothing; otherwise it first looks up the stripped name; it never sends more than two requests |
| `Pipeline.LookUp` | Weather_prediction.py:159-162 | a run on a non-empty name sends the lookup of that name first and never ends as empty input |
| `Pipeline.Fetch` | Weather_prediction.py:164-167 | after a lookup, exactly the lookup and the weather request for the location's coordinates and timezone are sent, and a stop is never blamed on geocoding |
| `Pipeline.Finish` | Weather_prediction.py:165-170 | a summary is shown only for a successful, truthy payload, and it is the summary extracted from that payload |
| `Pipeline.EmptyInputSendsNothing` | Weather_prediction.py:153-157 | the run stops for empty input exactly when the line is all whitespace, and then sends no request |
| `Pipeline.FirstRequestIsGeocoding` | Weather_prediction.py:153-160 | otherwise the first request is the lookup of the stripped name |
| `Pipeline.GeocodingFailureStops` | Weather_prediction.py:160-162 | a geocoding failure or exception ends the run after that single request |
| `Pipeline.WeatherRequestUsesLocation` | Weather_prediction.py:160-165 | after a successful lookup, the second and last request carries the location's latitude, longitude and timezone |
| `Pipeline.WeatherFailureStops` | Weather_prediction.py:165-167 | a failed weather call ends the run with that failure or exception, showing nothing |
| `Pipeline.FalsyWeatherStops` | Weather_prediction.py:165-167 | a falsy payload ends the run silently, without a summary |
| `Pipeline.EmptyObjectWeatherStops` | Weather_prediction.py:165-167 | a 200 whose body is `{}` ends the run silently, with no summary |
| `Pipeline.ShownOnlyAfterBothCalls` | Weather_prediction.py:159-170 | a summary is shown only after both calls succeeded with a truthy payload, and it is the summary of that payload for that location |
| `Pipeline.BothCallsSucceedShows` | Weather_prediction.py:164-170 | when both calls succeed with a truthy payload, the run shows the extracted summary or raises while extracting it |

## Left out

- `build_session`, lines 8-27: urllib3's `Retry` and `HTTPAdapter` perform the retry and backoff. Their code is not part of this model. The settings are recorded as the data `Http.SessionRetry`. The model sees only the final outcome of each call.
- The network itself, the timeout in seconds, and the decoding done by `r.json()`. These are I/O. A call's ending is the input `Response`, and the network is the parameter `net`. How `requests` encodes the query is not modelled, including that it drops `None`-valued parameters such as a null latitude.
- The console: `input`'s prompt, the banner, emoji and message wording of `print`. Only the values shown are modelled (`Display.Summary`), not the printed text.
- Float arithmetic and the spelling of floats. A float is its value plus the text `str()` gives it, and the two are not checked against each other. Non-finite floats are not represented: the `NaN`, `Infinity` and `-Infinity` that Python's decoder accepts, and the `inf` an overlong literal such as `1e400` becomes, have no `real` value.
- Retries and timeouts across several attempts, and concurrency: the program makes one sequential call at a time.
- The partial output of a run that raises while printing. When the weather code is a list or dict, the banner and the location line are already printed before `wmo_code_to_text` raises. `Crashed(Show, TypeError)` does not record those lines.
