/** `geocode_city`: one lookup of the city name at the Open-Meteo geocoding
    service, and the shaping of its reply into a location record.
 */
module Geocoding {
  import opened Outcomes
  import opened Json
  import opened Http

  const GeocodingUrl: string := "https://geocoding-api.open-meteo.com/v1/search"

  /** The dict `geocode_city` returns. Every field is whatever JSON value the
      service sent, or the default the program puts in its place; latitude and
      longitude have no default and are null when absent. */
  datatype Location = Location(name: Json, country: Json, lat: Json, lon: Json, timezone: Json)

  /** The lookup: the city name, one match, English names, JSON output. */
  function GeocodeRequest(city: string): Request {
    Request(GeocodingUrl,
            [("name", Str(city)), ("count", Int(1)), ("language", Str("en")), ("format", Str("json"))],
            RequestTimeout)
  }

  /** The record built from the first match `top`. */
  function LocationOf(city: string, top: map<string, Json>): Location {
    Location(
      Lookup(top, "name", Str(city)),
      Lookup(top, "country", Str("")),
      Lookup(top, "latitude", Null),
      Lookup(top, "longitude", Null),
      Lookup(top, "timezone", Str("auto")))
  }

  /** What `geocode_city` does with the decoded body of a 200 reply. */
  function ShapeResults(city: string, data: Json): (r: Result<Location>)
    ensures r.Fail? ==> r.failure == NotFound(city)
  {
    var results := Get(data, "results", Arr([]));
    if !results.Ok? then Crash(AttributeError)
    else if !Truthy(results.value) then Fail(NotFound(city))
    else
      var top := First(results.value);
      if !top.Ok? then Crash(top.fault)
      else if !top.value.Obj? then Crash(AttributeError)
      else Ok(LocationOf(city, top.value.fields))
  }

  /** Everything `geocode_city` does after `session.get` has ended with `resp`. */
  function ShapeGeocoding(city: string, resp: Response): Result<Location> {
    match Receive(resp)
    case Ok(data) => ShapeResults(city, data)
    case Fail(f) => Fail(f)
    case Crash(e) => Crash(e)
  }

  /** `geocode_city(session, city)`, the session standing for the network. */
  function GeocodeCity(city: string, net: Request -> Response): Result<Location> {
    ShapeGeocoding(city, net(GeocodeRequest(city)))
  }

  /** The query carries exactly name = city, count = 1, language = "en" and
      format = "json", and goes to the search endpoint with the fixed timeout. */
  lemma GeocodeQuery(city: string, key: string)
    ensures GeocodeRequest(city).url == GeocodingUrl
    ensures GeocodeRequest(city).timeout == RequestTimeout
    ensures Param(GeocodeRequest(city).params, "name") == Some(Str(city))
    ensures Param(GeocodeRequest(city).params, "count") == Some(Int(1))
    ensures Param(GeocodeRequest(city).params, "language") == Some(Str("en"))
    ensures Param(GeocodeRequest(city).params, "format") == Some(Str("json"))
    ensures key !in {"name", "count", "language", "format"} ==>
              Param(GeocodeRequest(city).params, key) == None
  {
    var p := GeocodeRequest(city).params;
    ParamAt(p, 2, "language");
    ParamAt(p, 3, "format");
  }

  /** Transport failures and non-200 statuses are reported as they are, a timeout
      apart from every other transport error, whatever the body. */
  lemma GeocodeCallFailures(city: string, detail: string, status: int, body: Option<Json>)
    ensures ShapeGeocoding(city, Timeout) == Fail(TimedOut)
    ensures ShapeGeocoding(city, TransportError(detail)) == Fail(NetworkError(detail))
    ensures status != 200 ==> ShapeGeocoding(city, Reply(status, body)) == Fail(HttpStatus(status))
  {
  }

  /** "Not found" exactly when a 200 carries a dict whose `results` is absent or
      false in Python's sense: null, an empty list, or any other falsy value. */
  lemma GeocodeNotFoundIff(city: string, resp: Response)
    ensures ShapeGeocoding(city, resp) == Fail(NotFound(city)) <==>
              resp.Reply? && resp.status == 200 && resp.body.Some? && resp.body.value.Obj? &&
              !Truthy(Lookup(resp.body.value.fields, "results", Arr([])))
  {
  }

  /** In particular `results` missing, null or an empty list means "not found". */
  lemma GeocodeNoResults(city: string, m: map<string, Json>)
    requires "results" !in m || m["results"] == Null || m["results"] == Arr([])
    ensures ShapeGeocoding(city, Reply(200, Some(Obj(m)))) == Fail(NotFound(city))
  {
  }

  /** A location comes only from a 200 whose `results` is a non-empty list whose
      first element is a dict, and it is built from that element. */
  lemma GeocodeFoundShape(city: string, resp: Response, loc: Location)
    requires ShapeGeocoding(city, resp) == Ok(loc)
    ensures resp.Reply? && resp.status == 200 && resp.body.Some? && resp.body.value.Obj?
    ensures var m := resp.body.value.fields;
            "results" in m && m["results"].Arr? && |m["results"].items| > 0 &&
            m["results"].items[0].Obj? && loc == LocationOf(city, m["results"].items[0].fields)
  {
    var results := Get(resp.body.value, "results", Arr([]));
    assert results.Ok? && Truthy(results.value);
    assert First(results.value).Ok?;
  }

  /** Conversely, such a reply always yields the location of its first match. */
  lemma GeocodeFirstMatch(city: string, m: map<string, Json>, items: seq<Json>, top: map<string, Json>)
    requires "results" in m && m["results"] == Arr(items)
    requires |items| > 0 && items[0] == Obj(top)
    ensures ShapeGeocoding(city, Reply(200, Some(Obj(m)))) == Ok(LocationOf(city, top))
  {
  }

  /** Only the first match matters: the other matches never change the outcome. */
  lemma GeocodeIgnoresLaterMatches(city: string, m: map<string, Json>, items: seq<Json>, others: seq<Json>)
    requires |items| > 0
    ensures ShapeGeocoding(city, Reply(200, Some(Obj(m["results" := Arr(items)])))) ==
            ShapeGeocoding(city, Reply(200, Some(Obj(m["results" := Arr([items[0]] + others)]))))
  {
  }

  /** The defaults of the location record: the typed city name, an empty country,
      timezone "auto", and null coordinates; a field that is present is copied as
      it is, null included. */
  lemma LocationDefaults(city: string, top: map<string, Json>)
    ensures LocationOf(city, top).name == if "name" in top then top["name"] else Str(city)
    ensures "country" !in top ==> LocationOf(city, top).country == Str("")
    ensures "country" in top ==> LocationOf(city, top).country == top["country"]
    ensures "timezone" !in top ==> LocationOf(city, top).timezone == Str("auto")
    ensures "timezone" in top ==> LocationOf(city, top).timezone == top["timezone"]
    ensures LocationOf(city, top).lat == if "latitude" in top then top["latitude"] else Null
    ensures LocationOf(city, top).lon == if "longitude" in top then top["longitude"] else Null
  {
  }

  /** Bodies the program does not expect make it raise instead of reporting: a
      200 body that is not JSON, a body that is not a dict, a truthy `results`
      that is not a list (a string's first character has no `.get`), or a first
      match that is not a dict. */
  lemma GeocodeCrashes(city: string, data: Json, m: map<string, Json>)
    ensures ShapeGeocoding(city, Reply(200, None)) == Crash(JSONDecodeError)
    ensures !data.Obj? ==> ShapeGeocoding(city, Reply(200, Some(data))) == Crash(AttributeError)
    ensures "results" in m && m["results"].Obj? && Truthy(m["results"]) ==>
              ShapeGeocoding(city, Reply(200, Some(Obj(m)))) == Crash(KeyError)
    ensures "results" in m && (m["results"].Int? || m["results"].Float? || m["results"].Bool?) &&
            Truthy(m["results"]) ==>
              ShapeGeocoding(city, Reply(200, Some(Obj(m)))) == Crash(TypeError)
    ensures "results" in m && m["results"].Str? && Truthy(m["results"]) ==>
              ShapeGeocoding(city, Reply(200, Some(Obj(m)))) == Crash(AttributeError)
    ensures "results" in m && m["results"].Arr? && |m["results"].items| > 0 &&
            !m["results"].items[0].Obj? ==>
              ShapeGeocoding(city, Reply(200, Some(Obj(m)))) == Crash(AttributeError)
  {
  }
}
