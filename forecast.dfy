/** `get_weather`: one forecast request for a location, whose decoded reply is
    handed on unchanged.
 */
module Forecast {
  import opened Outcomes
  import opened Json
  import opened Http

  const ForecastUrl: string := "https://api.open-meteo.com/v1/forecast"

  const TemperatureKey: string := "temperature_2m"
  const HumidityKey: string := "relative_humidity_2m"
  const FeelsLikeKey: string := "apparent_temperature"
  const CodeKey: string := "weather_code"
  const WindKey: string := "wind_speed_10m"
  const HighKey: string := "temperature_2m_max"
  const LowKey: string := "temperature_2m_min"
  const RainKey: string := "precipitation_sum"

  /** The `current` field list, as the query spells it. */
  const CurrentFields: string :=
    "temperature_2m,relative_humidity_2m,apparent_temperature,weather_code,wind_speed_10m"

  /** The `daily` field list, as the query spells it. */
  const DailyFields: string := "temperature_2m_max,temperature_2m_min,precipitation_sum"

  /** The forecast query: the coordinates and timezone as given, the two field
      lists, and a single day. */
  function ForecastRequest(lat: Json, lon: Json, timezone: Json := Str("auto")): Request {
    Request(ForecastUrl,
            [("latitude", lat),
             ("longitude", lon),
             ("current", Str(CurrentFields)),
             ("daily", Str(DailyFields)),
             ("timezone", timezone),
             ("forecast_days", Int(1))],
            RequestTimeout)
  }

  /** `get_weather(session, lat, lon, timezone)`, the session standing for the network. */
  function GetWeather(lat: Json, lon: Json, timezone: Json, net: Request -> Response): Result<Json> {
    Receive(net(ForecastRequest(lat, lon, timezone)))
  }

  /** The query carries the coordinates and the timezone it is given, and goes to
      the forecast endpoint with the fixed timeout. */
  lemma ForecastQueryLocation(lat: Json, lon: Json, timezone: Json)
    ensures ForecastRequest(lat, lon, timezone).url == ForecastUrl
    ensures ForecastRequest(lat, lon, timezone).timeout == RequestTimeout
    ensures Param(ForecastRequest(lat, lon, timezone).params, "latitude") == Some(lat)
    ensures Param(ForecastRequest(lat, lon, timezone).params, "longitude") == Some(lon)
    ensures Param(ForecastRequest(lat, lon, timezone).params, "timezone") == Some(timezone)
  {
    ParamAt(ForecastRequest(lat, lon, timezone).params, 4, "timezone");
  }

  /** The query also carries the two fixed field lists and forecast_days = 1. */
  lemma ForecastQueryFields(lat: Json, lon: Json, timezone: Json)
    ensures Param(ForecastRequest(lat, lon, timezone).params, "current") ==
            Some(Str("temperature_2m,relative_humidity_2m,apparent_temperature,weather_code,wind_speed_10m"))
    ensures Param(ForecastRequest(lat, lon, timezone).params, "daily") ==
            Some(Str("temperature_2m_max,temperature_2m_min,precipitation_sum"))
    ensures Param(ForecastRequest(lat, lon, timezone).params, "forecast_days") == Some(Int(1))
  {
    var p := ForecastRequest(lat, lon, timezone).params;
    ParamAt(p, 2, "current");
    ParamAt(p, 3, "daily");
    ParamAt(p, 5, "forecast_days");
  }

  /** ... and no other parameter. */
  lemma ForecastQueryHasNoOtherParams(lat: Json, lon: Json, timezone: Json, key: string)
    requires key !in {"latitude", "longitude", "current", "daily", "timezone", "forecast_days"}
    ensures Param(ForecastRequest(lat, lon, timezone).params, key) == None
  {
  }

  /** Without a timezone the request asks the service to infer it. */
  lemma ForecastDefaultTimezone(lat: Json, lon: Json)
    ensures ForecastRequest(lat, lon) == ForecastRequest(lat, lon, Str("auto"))
  {
  }

  /** The payload is the decoded body, unmodified, exactly when the reply is a 200. */
  lemma GetWeatherPassesBodyThrough(lat: Json, lon: Json, timezone: Json, net: Request -> Response, payload: Json)
    ensures GetWeather(lat, lon, timezone, net) == Ok(payload) <==>
            net(ForecastRequest(lat, lon, timezone)) == Reply(200, Some(payload))
  {
    ReceiveOkIff(net(ForecastRequest(lat, lon, timezone)), payload);
  }

  /** A timeout, another transport error and a non-200 status are each reported
      as such. */
  lemma GetWeatherFailures(lat: Json, lon: Json, timezone: Json, net: Request -> Response)
    ensures var resp := net(ForecastRequest(lat, lon, timezone));
            && (resp == Timeout ==> GetWeather(lat, lon, timezone, net) == Fail(TimedOut))
            && (resp.TransportError? ==> GetWeather(lat, lon, timezone, net) == Fail(NetworkError(resp.detail)))
            && (resp.Reply? && resp.status != 200 ==>
                  GetWeather(lat, lon, timezone, net) == Fail(HttpStatus(resp.status)))
  {
  }
}
