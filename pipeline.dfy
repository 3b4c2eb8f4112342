/** `main`: read a city name, geocode it, fetch its weather, show the summary, each
    step either stopping the run or feeding the next.
 */
module Pipeline {
  import opened Outcomes
  import opened Json
  import opened Text
  import opened Http
  import opened Geocoding
  import opened Forecast
  import opened Display

  datatype Step = Geocode | Weather | Show

  /** How a run ends. */
  datatype Outcome =
    | EmptyCity                            // nothing but whitespace was typed
    | Stopped(step: Step, failure: Failure) // a step reported a failure and returned None
    | Crashed(step: Step, fault: Fault)     // a step raised
    | NoWeather(payload: Json)              // the weather payload was falsy: silent stop
    | Shown(summary: Summary)

  /** The requests a run sent, in order, and how it ended. */
  datatype Run = Run(requests: seq<Request>, outcome: Outcome)

  /** `main()` for the line the user types and the network's answers. */
  function RunBot(line: string, net: Request -> Response): (run: Run)
    ensures run.outcome == EmptyCity <==> AllSpace(line)
    ensures AllSpace(line) ==> run.requests == []
    ensures !AllSpace(line) ==> |run.requests| >= 1 && run.requests[0] == GeocodeRequest(Strip(line))
    ensures |run.requests| <= 2
  {
    StripEmptyIff(line);
    var city := Strip(line);
    if city == [] then Run([], EmptyCity) else LookUp(city, net)
  }

  /** Step 1: geocode the (non-empty) city name. The dict `geocode_city` returns
      always has five keys, so `if not city_info` only ever catches its None. */
  function LookUp(city: string, net: Request -> Response): (run: Run)
    ensures 1 <= |run.requests| <= 2 && run.requests[0] == GeocodeRequest(city)
    ensures run.outcome != EmptyCity
  {
    var geoRequest := GeocodeRequest(city);
    match GeocodeCity(city, net)
    case Fail(f) => Run([geoRequest], Stopped(Geocode, f))
    case Crash(e) => Run([geoRequest], Crashed(Geocode, e))
    case Ok(loc) => Fetch(geoRequest, loc, net)
  }

  /** Step 2: fetch the weather for the location found. */
  function Fetch(geoRequest: Request, loc: Location, net: Request -> Response): (run: Run)
    ensures run.requests == [geoRequest, ForecastRequest(loc.lat, loc.lon, loc.timezone)]
    ensures run.outcome != EmptyCity
    ensures run.outcome.Stopped? || run.outcome.Crashed? ==> run.outcome.step != Geocode
  {
    var sent := [geoRequest, ForecastRequest(loc.lat, loc.lon, loc.timezone)];
    Finish(sent, loc, GetWeather(loc.lat, loc.lon, loc.timezone, net))
  }

  /** Step 3: stop on a failed call or a falsy payload, otherwise show the summary. */
  function Finish(sent: seq<Request>, loc: Location, weather: Result<Json>): (run: Run)
    ensures run.requests == sent
    ensures run.outcome.Shown? ==>
              weather.Ok? && Truthy(weather.value) && Summarize(loc, weather.value) == Ok(run.outcome.summary)
  {
    match weather
    case Fail(f) => Run(sent, Stopped(Weather, f))
    case Crash(e) => Run(sent, Crashed(Weather, e))
    case Ok(payload) =>
      if !Truthy(payload) then Run(sent, NoWeather(payload))
      else
        var shown := Summarize(loc, payload);
        if shown.Ok? then Run(sent, Shown(shown.value)) else Run(sent, Crashed(Show, shown.fault))
  }

  /** Input that is empty after stripping whitespace stops the run before any request. */
  lemma EmptyInputSendsNothing(line: string, net: Request -> Response)
    ensures RunBot(line, net).outcome == EmptyCity <==> AllSpace(line)
    ensures AllSpace(line) ==> RunBot(line, net).requests == []
  {
    StripEmptyIff(line);
  }

  /** Otherwise the first request is the lookup of the stripped name. */
  lemma FirstRequestIsGeocoding(line: string, net: Request -> Response)
    requires !AllSpace(line)
    ensures |RunBot(line, net).requests| >= 1
    ensures RunBot(line, net).requests[0] == GeocodeRequest(Strip(line))
  {
    StripEmptyIff(line);
  }

  /** A geocoding failure stops the run before any weather request. */
  lemma GeocodingFailureStops(line: string, net: Request -> Response)
    requires !AllSpace(line)
    requires !GeocodeCity(Strip(line), net).Ok?
    ensures RunBot(line, net).requests == [GeocodeRequest(Strip(line))]
    ensures var g := GeocodeCity(Strip(line), net);
            RunBot(line, net).outcome == if g.Fail? then Stopped(Geocode, g.failure) else Crashed(Geocode, g.fault)
  {
    StripEmptyIff(line);
  }

  /** After a successful lookup the weather request carries the location's
      latitude, longitude and timezone, and no further request is sent. */
  lemma WeatherRequestUsesLocation(line: string, net: Request -> Response, loc: Location)
    requires !AllSpace(line)
    requires GeocodeCity(Strip(line), net) == Ok(loc)
    ensures RunBot(line, net).requests ==
            [GeocodeRequest(Strip(line)), ForecastRequest(loc.lat, loc.lon, loc.timezone)]
    ensures RunBot(line, net).outcome != EmptyCity
    ensures RunBot(line, net).outcome.Stopped? || RunBot(line, net).outcome.Crashed? ==>
              RunBot(line, net).outcome.step != Geocode
  {
    StripEmptyIff(line);
  }

  /** A failed weather call stops the run with the failure or exception it ended in,
      and nothing is shown. */
  lemma WeatherFailureStops(line: string, net: Request -> Response, loc: Location)
    requires !AllSpace(line)
    requires GeocodeCity(Strip(line), net) == Ok(loc)
    requires !GetWeather(loc.lat, loc.lon, loc.timezone, net).Ok?
    ensures var w := GetWeather(loc.lat, loc.lon, loc.timezone, net);
            RunBot(line, net).outcome == if w.Fail? then Stopped(Weather, w.failure) else Crashed(Weather, w.fault)
  {
    StripEmptyIff(line);
  }

  /** A falsy payload ({}, [], null, false, 0, "") stops the run without a summary. */
  lemma FalsyWeatherStops(line: string, net: Request -> Response, loc: Location, payload: Json)
    requires !AllSpace(line)
    requires GeocodeCity(Strip(line), net) == Ok(loc)
    requires net(ForecastRequest(loc.lat, loc.lon, loc.timezone)) == Reply(200, Some(payload))
    requires !Truthy(payload)
    ensures RunBot(line, net).outcome == NoWeather(payload)
  {
    StripEmptyIff(line);
  }

  /** In particular a 200 whose body is the empty object shows nothing. */
  lemma EmptyObjectWeatherStops(line: string, net: Request -> Response, loc: Location)
    requires !AllSpace(line)
    requires GeocodeCity(Strip(line), net) == Ok(loc)
    requires net(ForecastRequest(loc.lat, loc.lon, loc.timezone)) == Reply(200, Some(Obj(map[])))
    ensures RunBot(line, net).outcome == NoWeather(Obj(map[]))
  {
    StripEmptyIff(line);
    var city := Strip(line);
    assert RunBot(line, net) == Fetch(GeocodeRequest(city), loc, net);
    assert GetWeather(loc.lat, loc.lon, loc.timezone, net) == Ok(Obj(map[]));
  }

  /** A summary is shown only when both calls succeeded, the payload is truthy, and
      the summary is the one extracted from that payload for that location. */
  lemma ShownOnlyAfterBothCalls(line: string, net: Request -> Response, s: Summary)
    requires RunBot(line, net).outcome == Shown(s)
    ensures !AllSpace(line)
    ensures GeocodeCity(Strip(line), net).Ok?
    ensures var loc := GeocodeCity(Strip(line), net).value;
            var w := GetWeather(loc.lat, loc.lon, loc.timezone, net);
            w.Ok? && Truthy(w.value) && Summarize(loc, w.value) == Ok(s)
  {
    StripEmptyIff(line);
    var city := Strip(line);
    var g := GeocodeCity(city, net);
    assert g.Ok?;
    var loc := g.value;
    assert RunBot(line, net) == Fetch(GeocodeRequest(city), loc, net);
  }

  /** Conversely, when both calls succeed with a truthy payload the run shows its
      summary or raises while extracting it; it never stops silently. */
  lemma BothCallsSucceedShows(line: string, net: Request -> Response, loc: Location, payload: Json)
    requires !AllSpace(line)
    requires GeocodeCity(Strip(line), net) == Ok(loc)
    requires net(ForecastRequest(loc.lat, loc.lon, loc.timezone)) == Reply(200, Some(payload))
    requires Truthy(payload)
    ensures RunBot(line, net).outcome ==
            if Summarize(loc, payload).Ok? then Shown(Summarize(loc, payload).value)
            else Crashed(Show, Summarize(loc, payload).fault)
  {
    StripEmptyIff(line);
  }
}
