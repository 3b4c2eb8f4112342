/** The field extraction of `print_weather`: which value stands in each line of the
    summary, a field that is missing replaced by a placeholder. The banner, emoji and
    wording are presentation and are not modelled.
 */
module Display {
  import opened Outcomes
  import opened Json
  import opened Wmo
  import opened Geocoding
  import opened Forecast

  /** The placeholder for a missing value. */
  const NotAvailable: Json := Str("N/A")

  /** The placeholder the program uses for a missing wind speed. */
  const WindNotAvailable: Json := Str("N/h")

  /** The values the summary shows, in the order it shows them. */
  datatype Summary = Summary(
    name: Json, country: Json,
    condition: string,
    temperature: Json, feelsLike: Json,
    humidity: Json,
    wind: Json,
    low: Json, high: Json, rain: Json)

  /** `get_safe_daily(key)`: today's entry of a daily series, or the placeholder. */
  function SafeDaily(daily: map<string, Json>, key: string): Json {
    var v := Lookup(daily, key, Null);
    if v.Arr? && |v.items| > 0 then v.items[0] else NotAvailable
  }

  /** `wmo_code_to_text(code)` applied to whatever JSON value the weather code is.
      Python compares dictionary keys by value, so `True`, `False` and a float with
      an integral value find the entries of 1, 0 and that integer; an f-string
      spells None as "None"; a list or dict cannot be a key at all. */
  function ConditionText(code: Json): (r: Result<string>)
    ensures r.Crash? <==> !Hashable(code)
    ensures r.Crash? ==> r.fault == TypeError
    ensures !r.Fail?
  {
    match code
    case Int(i) => Ok(WmoCodeToText(i))
    case Bool(b) => Ok(WmoCodeToText(if b then 1 else 0))
    case Float(x, text) =>
      if x == x.Floor as real && ConditionTable(x.Floor).Some? then Ok(ConditionTable(x.Floor).value)
      else Ok(FallbackPrefix + text)
    case Null => Ok("Condition None")
    case Str(s) => Ok(FallbackPrefix + s)
    case Arr(_) => Crash(TypeError)
    case Obj(_) => Crash(TypeError)
  }

  /** A section the extraction can use: absent, or a dict. */
  predicate SectionOk(fields: map<string, Json>, key: string) {
    key !in fields || fields[key].Obj?
  }

  /** The section under `key`, an empty dict when absent. */
  function SectionOf(fields: map<string, Json>, key: string): map<string, Json>
    requires SectionOk(fields, key)
  {
    if key in fields then fields[key].fields else map[]
  }

  /** The `current` and `daily` sections, each an empty dict when absent. */
  function Sections(weather: Json): (r: Result<(map<string, Json>, map<string, Json>)>)
    ensures r.Ok? <==> weather.Obj? && SectionOk(weather.fields, "current") && SectionOk(weather.fields, "daily")
    ensures !r.Ok? ==> r == Crash(AttributeError)
  {
    var cur := Get(weather, "current", Obj(map[]));
    var daily := Get(weather, "daily", Obj(map[]));
    if !cur.Ok? || !daily.Ok? then Crash(AttributeError)
    else if !cur.value.Obj? || !daily.value.Obj? then Crash(AttributeError)
    else Ok((cur.value.fields, daily.value.fields))
  }

  /** The summary of a location from the two sections. */
  function SummaryOf(loc: Location, cur: map<string, Json>, daily: map<string, Json>): (r: Result<Summary>)
    ensures r.Ok? <==> CodeKey !in cur || Hashable(cur[CodeKey])
    ensures !r.Ok? ==> r == Crash(TypeError)
  {
    var condition := ConditionText(Lookup(cur, CodeKey, Int(0)));
    if !condition.Ok? then Crash(TypeError)
    else Ok(Summary(
      loc.name, loc.country,
      condition.value,
      Lookup(cur, TemperatureKey, NotAvailable), Lookup(cur, FeelsLikeKey, NotAvailable),
      Lookup(cur, HumidityKey, NotAvailable),
      Lookup(cur, WindKey, WindNotAvailable),
      SafeDaily(daily, LowKey), SafeDaily(daily, HighKey), SafeDaily(daily, RainKey)))
  }

  /** What `print_weather(city_info, weather_json)` shows, or the exception it raises. */
  function Summarize(loc: Location, weather: Json): (r: Result<Summary>)
    ensures !r.Fail?
  {
    match Sections(weather)
    case Ok((cur, daily)) => SummaryOf(loc, cur, daily)
    case Crash(e) => Crash(e)
    case Fail(f) => Fail(f)
  }

  /** Today's value is element 0 of a non-empty list ... */
  lemma SafeDailyFirst(daily: map<string, Json>, key: string, items: seq<Json>)
    requires key in daily && daily[key] == Arr(items) && |items| > 0
    ensures SafeDaily(daily, key) == items[0]
  {
  }

  /** ... and "N/A" when the key is absent, the list is empty, or the value is no list. */
  lemma SafeDailyPlaceholder(daily: map<string, Json>, key: string)
    requires key !in daily || !daily[key].Arr? || daily[key].items == []
    ensures SafeDaily(daily, key) == Str("N/A")
  {
  }

  /** The sections: a missing one is an empty dict, a present one is used as it is,
      and one that is not a dict (or a payload that is not a dict) makes `.get` raise. */
  lemma SectionsDefaults(weather: Json)
    ensures !weather.Obj? ==> Sections(weather) == Crash(AttributeError)
    ensures weather.Obj? && "current" !in weather.fields && "daily" !in weather.fields ==>
              Sections(weather) == Ok((map[], map[]))
    ensures weather.Obj? && "current" in weather.fields && !weather.fields["current"].Obj? ==>
              Sections(weather) == Crash(AttributeError)
    ensures weather.Obj? && "daily" in weather.fields && !weather.fields["daily"].Obj? ==>
              Sections(weather) == Crash(AttributeError)
    ensures weather.Obj? && SectionOk(weather.fields, "current") && SectionOk(weather.fields, "daily") ==>
              Sections(weather) ==
              Ok((SectionOf(weather.fields, "current"), SectionOf(weather.fields, "daily")))
  {
  }

  /** A dict payload whose sections are absent or dicts gets through the section
      lookups: its summary is the one of the two sections, each defaulted to an
      empty dict. */
  lemma SummarizeDict(loc: Location, m: map<string, Json>)
    requires SectionOk(m, "current") && SectionOk(m, "daily")
    ensures Summarize(loc, Obj(m)) == SummaryOf(loc, SectionOf(m, "current"), SectionOf(m, "daily"))
  {
    SectionsDefaults(Obj(m));
  }

  /** The current-section defaults: "N/A" for temperature, apparent temperature and
      humidity, "N/h" for wind speed, and weather code 0 ("Clear sky"); a present
      field is shown as it is. */
  lemma CurrentDefaults(loc: Location, cur: map<string, Json>, daily: map<string, Json>)
    requires CodeKey !in cur || Hashable(cur[CodeKey])
    ensures SummaryOf(loc, cur, daily).Ok?
    ensures var s := SummaryOf(loc, cur, daily).value;
            && s.name == loc.name && s.country == loc.country
            && s.temperature == (if "temperature_2m" in cur then cur["temperature_2m"] else Str("N/A"))
            && s.feelsLike == (if "apparent_temperature" in cur then cur["apparent_temperature"] else Str("N/A"))
            && s.humidity == (if "relative_humidity_2m" in cur then cur["relative_humidity_2m"] else Str("N/A"))
            && s.wind == (if "wind_speed_10m" in cur then cur["wind_speed_10m"] else Str("N/h"))
            && ("weather_code" !in cur ==> s.condition == "Clear sky")
            && ("weather_code" in cur && cur["weather_code"].Int? ==>
                  s.condition == WmoCodeToText(cur["weather_code"].i))
  {
  }

  /** The daily lines are today's entries, each "N/A" on its own when missing. */
  lemma DailyValues(loc: Location, cur: map<string, Json>, daily: map<string, Json>)
    requires SummaryOf(loc, cur, daily).Ok?
    ensures var s := SummaryOf(loc, cur, daily).value;
            && s.low == SafeDaily(daily, "temperature_2m_min")
            && s.high == SafeDaily(daily, "temperature_2m_max")
            && s.rain == SafeDaily(daily, "precipitation_sum")
  {
  }

  /** Only the weather code can make the extraction raise once the sections are
      dicts: a list or dict cannot be looked up in the table. */
  lemma SummaryCrashIff(loc: Location, cur: map<string, Json>, daily: map<string, Json>)
    ensures SummaryOf(loc, cur, daily).Ok? <==> CodeKey !in cur || Hashable(cur[CodeKey])
    ensures !SummaryOf(loc, cur, daily).Ok? ==> SummaryOf(loc, cur, daily) == Crash(TypeError)
  {
  }

  /** A missing wind speed changes the wind line and nothing else, and never makes
      the summary fail. */
  lemma MissingWindOnlyAffectsWind(loc: Location, cur: map<string, Json>, daily: map<string, Json>)
    requires SummaryOf(loc, cur, daily).Ok?
    ensures var without := SummaryOf(loc, cur - {WindKey}, daily);
            without.Ok? && without.value == SummaryOf(loc, cur, daily).value.(wind := Str("N/h"))
  {
  }

  /** A payload with neither section shows the location, "Clear sky" and
      placeholders everywhere else. */
  lemma NoSectionsSummary(loc: Location, m: map<string, Json>)
    requires "current" !in m && "daily" !in m
    ensures Summarize(loc, Obj(m)) ==
            Ok(Summary(loc.name, loc.country, "Clear sky",
                       Str("N/A"), Str("N/A"), Str("N/A"), Str("N/h"), Str("N/A"), Str("N/A"), Str("N/A")))
  {
    SectionsDefaults(Obj(m));
  }

  /** The condition of an integer code is its table text or fallback; booleans and
      integral floats behave as the integer they equal; lists and dicts raise. */
  lemma ConditionTextCases(code: Json)
    ensures code.Int? ==> ConditionText(code) == Ok(WmoCodeToText(code.i))
    ensures code == Bool(true) ==> ConditionText(code) == Ok("Mainly clear")
    ensures code == Bool(false) ==> ConditionText(code) == Ok("Clear sky")
    ensures code.Float? && code.value == 3.0 ==> ConditionText(code) == Ok("Overcast")
    ensures code == Null ==> ConditionText(code) == Ok("Condition None")
    ensures ConditionText(code).Crash? <==> !Hashable(code)
    ensures !ConditionText(code).Fail?
  {
  }
}
