/** The Open-Meteo tools: the query-string serialiser `_build_query`, the
    request path and result shaping of `_weather_request`, the default
    variable lists of the forecast tools, and the geocoding search. */
module Weather {
  import opened Wrappers
  import Strings
  import Json
  import Dispatch

  /** A parameter value as the tools pass it.  Floats (coordinates) arrive
      already rendered, as `Text`. */
  datatype Param =
    | NoneValue
    | ListValue(items: seq<string>)
    | BoolValue(b: bool)
    | IntValue(i: int)
    | Text(s: string)

  /** An ordered parameter dict: Python dicts keep insertion order. */
  type Params = seq<(string, Param)>

  /** `str(v)` as `_build_query` renders it: list items comma-joined,
      booleans in lower case, integers in decimal, text as it is. */
  function Render(v: Param): (r: string)
    requires !v.NoneValue?
    ensures v.ListValue? ==> r == Strings.Join(v.items, ',')
    ensures v.BoolValue? ==> (r == "true" <==> v.b) && (r == "false" <==> !v.b)
    ensures v.IntValue? ==> r == Strings.IntToString(v.i)
    ensures v.Text? ==> r == v.s
  {
    match v
    case ListValue(items) => Strings.Join(items, ',')
    case BoolValue(b) => if b then "true" else "false"
    case IntValue(i) => Strings.IntToString(i)
    case Text(s) => s
  }

  /** One `k=v` part.  Nothing is escaped: the key and `=` come first, the
      rendered value after them. */
  function Part(key: string, v: Param): (p: string)
    requires !v.NoneValue?
    ensures |p| > |key| && p[..|key| + 1] == key + "=" && p[|key| + 1..] == Render(v)
  {
    key + "=" + Render(v)
  }

  /** The parts `_build_query` collects, in the dict's order, skipping `None`. */
  function QueryParts(params: Params): (parts: seq<string>)
    ensures |parts| <= |params|
    ensures forall i | 0 <= i < |parts| :: parts[i] != ""
    decreases |params|
  {
    if |params| == 0 then []
    else
      var (key, v) := params[|params| - 1];
      QueryParts(params[..|params| - 1]) + (if v.NoneValue? then [] else [Part(key, v)])
  }

  /** The query string: the parts joined by `&`. */
  function Query(params: Params): string {
    Strings.Join(QueryParts(params), '&')
  }

  /** `_build_query`: loop over the entries, skip `None`, render, then join with `&`. */
  method BuildQuery(params: Params) returns (q: string)
    ensures q == Query(params)
  {
    var parts: seq<string> := [];
    for i := 0 to |params|
      invariant parts == QueryParts(params[..i])
    {
      assert params[..i + 1][..i] == params[..i];
      var (key, v) := params[i];
      if v.NoneValue? {
        continue;
      }
      if v.ListValue? {
        parts := parts + [key + "=" + Strings.Join(v.items, ',')];
      } else if v.BoolValue? {
        parts := parts + [key + "=" + (if v.b then "true" else "false")];
      } else if v.IntValue? {
        parts := parts + [key + "=" + Strings.IntToString(v.i)];
      } else {
        parts := parts + [key + "=" + v.s];
      }
    }
    assert params[..|params|] == params;
    q := Strings.Join(parts, '&');
  }

  /** Every entry is `None`. */
  predicate AllNone(params: Params) {
    forall i | 0 <= i < |params| :: params[i].1.NoneValue?
  }

  /** The number of entries that are not `None`. */
  function PresentCount(params: Params): nat
    decreases |params|
  {
    if |params| == 0 then 0
    else PresentCount(params[..|params| - 1]) + (if params[|params| - 1].1.NoneValue? then 0 else 1)
  }

  /** Exactly one part per entry that is not `None`. */
  lemma {:induction false} PartPerPresentEntry(params: Params)
    ensures |QueryParts(params)| == PresentCount(params)
    ensures PresentCount(params) == 0 <==> AllNone(params)
    decreases |params|
  {
    if |params| > 0 {
      var init := params[..|params| - 1];
      PartPerPresentEntry(init);
      assert forall i | 0 <= i < |init| :: init[i] == params[i];
    }
  }

  /** The parts of two dicts laid end to end are the parts of each, in order. */
  lemma {:induction false} QueryPartsAppend(a: Params, b: Params)
    ensures QueryParts(a + b) == QueryParts(a) + QueryParts(b)
    decreases |b|
  {
    if |b| == 0 {
      assert a + b == a;
    } else {
      var init := b[..|b| - 1];
      assert (a + b)[..|a + b| - 1] == a + init;
      QueryPartsAppend(a, init);
    }
  }

  /** The query is empty exactly when every value is `None`. */
  lemma QueryEmptyIff(params: Params)
    ensures Query(params) == "" <==> AllNone(params)
  {
    PartPerPresentEntry(params);
    var parts := QueryParts(params);
    if |parts| > 0 {
      Strings.JoinNonEmpty(parts, '&');
    }
  }

  /** Order is kept and exactly one `&` separates the queries of two non-empty halves. */
  lemma QueryAppend(a: Params, b: Params)
    ensures Query(a + b) ==
      if Query(a) == "" then Query(b)
      else if Query(b) == "" then Query(a)
      else Query(a) + "&" + Query(b)
  {
    QueryPartsAppend(a, b);
    Strings.JoinAppend(QueryParts(a), QueryParts(b), '&');
    QueryEmptyIff(a);
    QueryEmptyIff(b);
    PartPerPresentEntry(a);
    PartPerPresentEntry(b);
  }

  /** A `None` entry contributes nothing, wherever it stands. */
  lemma NoneEntryIgnored(a: Params, key: string, b: Params)
    ensures Query(a + [(key, NoneValue)] + b) == Query(a + b)
  {
    QueryPartsAppend(a + [(key, NoneValue)], b);
    QueryPartsAppend(a, [(key, NoneValue)]);
    QueryPartsAppend(a, b);
    assert QueryParts([(key, NoneValue)]) == [] by {
      assert [(key, NoneValue)][..0] == [];
      assert QueryParts([(key, NoneValue)]) == QueryParts([]) + [];
    }
    assert QueryParts(a + [(key, NoneValue)]) == QueryParts(a);
  }

  /** A single present entry renders as `k=v`. */
  lemma SingleEntry(key: string, v: Param)
    requires !v.NoneValue?
    ensures Query([(key, v)]) == key + "=" + Render(v)
  {
    assert [(key, v)][..0] == [];
  }

  /** When neither keys nor rendered values contain `&`, splitting the query on `&` recovers the parts. */
  lemma QuerySplits(params: Params)
    requires !AllNone(params)
    requires forall i | 0 <= i < |params| :: '&' !in params[i].0 && (params[i].1.NoneValue? || '&' !in Render(params[i].1))
    ensures Strings.Split(Query(params), '&') == QueryParts(params)
  {
    PartPerPresentEntry(params);
    NoAmpersandInParts(params);
    Strings.SplitJoin(QueryParts(params), '&');
  }

  lemma {:induction false} NoAmpersandInParts(params: Params)
    requires forall i | 0 <= i < |params| :: '&' !in params[i].0 && (params[i].1.NoneValue? || '&' !in Render(params[i].1))
    ensures forall j | 0 <= j < |QueryParts(params)| :: '&' !in QueryParts(params)[j]
    decreases |params|
  {
    if |params| > 0 {
      var init := params[..|params| - 1];
      assert forall i | 0 <= i < |init| :: init[i] == params[i];
      NoAmpersandInParts(init);
    }
  }

  /** A comma-joined list value splits back into its items when no item contains a comma. */
  lemma ListValueSplits(items: seq<string>)
    requires |items| >= 1
    requires forall i | 0 <= i < |items| :: ',' !in items[i]
    ensures Strings.Split(Render(ListValue(items)), ',') == items
  {
    Strings.SplitJoin(items, ',');
  }

  /** `f"{path}?{query}" if query else path`. */
  function RequestPath(path: string, params: Params): (full: string)
    ensures full == path <==> AllNone(params)
    ensures !AllNone(params) ==> full == path + "?" + Query(params)
  {
    QueryEmptyIff(params);
    var query := Query(params);
    if query != "" then path + "?" + query else path
  }

  /** A tool's call: the connection it names and the request it sends. */
  datatype Call = Call(connection: string, request: Dispatch.Request)

  /** The GET request of `_weather_request`. */
  function WeatherCall(connection: string, path: string, params: Params): (c: Call)
    ensures c.connection == connection && c.request.verb == Dispatch.GET
    ensures c.request.path == RequestPath(path, params)
    ensures c.request.headers == map[] && c.request.body == None
  {
    Call(connection, Dispatch.Request(Dispatch.GET, RequestPath(path, params), map[], None))
  }

  datatype WeatherResult = WeatherResult(success: bool, data: Option<Json.Value>, error: Option<string>)

  /** `_weather_request`'s result: the body on success, otherwise the dispatcher's message or "Request failed". */
  function WeatherResultOf(resp: Dispatch.Response): (r: WeatherResult)
    ensures r.success == resp.success && (r.error.None? <==> r.success)
    ensures r.success ==> r.data == Some(resp.body)
    ensures !r.success ==> r.data.None? && r.error == Some(Dispatch.ErrorMessage(resp, "Request failed"))
  {
    if resp.success then WeatherResult(true, Some(resp.body), None)
    else WeatherResult(false, None, Some(Dispatch.ErrorMessage(resp, "Request failed")))
  }

  /** `variables or defaults`: both `None` and an empty list fall back to the defaults. */
  function OrDefault(variables: Option<seq<string>>, defaults: seq<string>): (r: seq<string>)
    ensures variables.None? || variables == Some([]) ==> r == defaults
    ensures variables.Some? && variables.value != [] ==> r == variables.value
  {
    if variables.Some? && variables.value != [] then variables.value else defaults
  }

  /** An optional list argument as a parameter value. */
  function OptionalList(variables: Option<seq<string>>): Param {
    if variables.Some? then ListValue(variables.value) else NoneValue
  }

  /** With no `None` entry, part `i` is the rendering of entry `i`. */
  lemma {:induction false} QueryPartsNoNone(params: Params)
    requires forall i | 0 <= i < |params| :: !params[i].1.NoneValue?
    ensures |QueryParts(params)| == |params|
    ensures forall i | 0 <= i < |params| :: QueryParts(params)[i] == Part(params[i].0, params[i].1)
    decreases |params|
  {
    if |params| > 0 {
      var init := params[..|params| - 1];
      assert forall i | 0 <= i < |init| :: init[i] == params[i];
      QueryPartsNoNone(init);
      var (key, v) := params[|params| - 1];
      assert params == init + [(key, v)];
      OneMore(init, key, v);
    }
  }

  /** Every present entry of a dict has its part in the query. */
  lemma {:induction false} PresentEntryInQuery(params: Params, i: nat)
    requires i < |params| && !params[i].1.NoneValue?
    ensures Part(params[i].0, params[i].1) in QueryParts(params)
    decreases |params|
  {
    if i < |params| - 1 {
      var init := params[..|params| - 1];
      assert init[i] == params[i];
      PresentEntryInQuery(init, i);
    }
  }

  const AirQualityPollutants := ["pm2_5", "pm10", "ozone", "nitrogen_dioxide"]
  const MarineVariables := ["wave_height", "wave_period", "wave_direction"]
  const FloodVariables := ["river_discharge"]
  const SeasonalVariables := ["temperature_2m_max", "temperature_2m_min", "precipitation_sum"]

  function AirQualityParams(latitude: string, longitude: string, hourly: Option<seq<string>>,
                            timezone: string, pastDays: int, forecastDays: int): Params {
    [("latitude", Text(latitude)), ("longitude", Text(longitude)),
     ("hourly", ListValue(OrDefault(hourly, AirQualityPollutants))),
     ("timezone", Text(timezone)), ("past_days", IntValue(pastDays)), ("forecast_days", IntValue(forecastDays))]
  }

  /** `air_quality`: the pollutant list is never empty in the query. */
  function AirQuality(latitude: string, longitude: string, hourly: Option<seq<string>>,
                      timezone: string, pastDays: int, forecastDays: int): (c: Call)
    ensures c == WeatherCall("open_meteo_air_quality", "/v1/air-quality",
                             AirQualityParams(latitude, longitude, hourly, timezone, pastDays, forecastDays))
    ensures "hourly=" + Strings.Join(OrDefault(hourly, AirQualityPollutants), ',')
            in QueryParts(AirQualityParams(latitude, longitude, hourly, timezone, pastDays, forecastDays))
  {
    var params := AirQualityParams(latitude, longitude, hourly, timezone, pastDays, forecastDays);
    PresentEntryInQuery(params, 2);
    assert Part(params[2].0, params[2].1) == params[2].0 + "=" + Strings.Join(params[2].1.items, ',');
    assert params[2].0 + "=" == "hourly=";
    WeatherCall("open_meteo_air_quality", "/v1/air-quality", params)
  }

  function MarineParams(latitude: string, longitude: string, hourly: Option<seq<string>>,
                        daily: Option<seq<string>>, timezone: string, forecastDays: int): Params {
    [("latitude", Text(latitude)), ("longitude", Text(longitude)),
     ("hourly", ListValue(OrDefault(hourly, MarineVariables))), ("daily", OptionalList(daily)),
     ("timezone", Text(timezone)), ("forecast_days", IntValue(forecastDays))]
  }

  /** `marine_weather`: hourly falls back to the wave variables; `daily` stays optional. */
  function MarineWeather(latitude: string, longitude: string, hourly: Option<seq<string>>,
                         daily: Option<seq<string>>, timezone: string, forecastDays: int): (c: Call)
    ensures c == WeatherCall("open_meteo_marine", "/v1/marine",
                             MarineParams(latitude, longitude, hourly, daily, timezone, forecastDays))
    ensures "hourly=" + Strings.Join(OrDefault(hourly, MarineVariables), ',')
            in QueryParts(MarineParams(latitude, longitude, hourly, daily, timezone, forecastDays))
  {
    var params := MarineParams(latitude, longitude, hourly, daily, timezone, forecastDays);
    PresentEntryInQuery(params, 2);
    assert Part(params[2].0, params[2].1) == params[2].0 + "=" + Strings.Join(params[2].1.items, ',');
    assert params[2].0 + "=" == "hourly=";
    WeatherCall("open_meteo_marine", "/v1/marine", params)
  }

  function FloodParams(latitude: string, longitude: string, daily: Option<seq<string>>,
                       timezone: string, forecastDays: int): Params {
    [("latitude", Text(latitude)), ("longitude", Text(longitude)),
     ("daily", ListValue(OrDefault(daily, FloodVariables))),
     ("timezone", Text(timezone)), ("forecast_days", IntValue(forecastDays))]
  }

  /** `flood_forecast`: daily falls back to `river_discharge`. */
  function FloodForecast(latitude: string, longitude: string, daily: Option<seq<string>>,
                         timezone: string, forecastDays: int): (c: Call)
    ensures c == WeatherCall("open_meteo_flood", "/v1/flood",
                             FloodParams(latitude, longitude, daily, timezone, forecastDays))
    ensures "daily=" + Strings.Join(OrDefault(daily, FloodVariables), ',')
            in QueryParts(FloodParams(latitude, longitude, daily, timezone, forecastDays))
  {
    var params := FloodParams(latitude, longitude, daily, timezone, forecastDays);
    PresentEntryInQuery(params, 2);
    assert Part(params[2].0, params[2].1) == params[2].0 + "=" + Strings.Join(params[2].1.items, ',');
    assert params[2].0 + "=" == "daily=";
    WeatherCall("open_meteo_flood", "/v1/flood", params)
  }

  function SeasonalParams(latitude: string, longitude: string, sixhourly: Option<seq<string>>,
                          daily: Option<seq<string>>, temperatureUnit: string, timezone: string,
                          forecastDays: int): Params {
    [("latitude", Text(latitude)), ("longitude", Text(longitude)), ("sixhourly", OptionalList(sixhourly)),
     ("daily", ListValue(OrDefault(daily, SeasonalVariables))), ("temperature_unit", Text(temperatureUnit)),
     ("timezone", Text(timezone)), ("forecast_days", IntValue(forecastDays))]
  }

  /** An entry holding an optional list shows up as its comma-joined part
      when given, and when absent the query is as if the entry were not there. */
  lemma SixhourlyOptional(params: Params, sixhourly: Option<seq<string>>)
    requires |params| > 2 && params[2] == ("sixhourly", OptionalList(sixhourly))
    ensures sixhourly.Some? ==> "sixhourly=" + Strings.Join(sixhourly.value, ',') in QueryParts(params)
    ensures sixhourly.None? ==> Query(params) == Query(params[..2] + params[3..])
  {
    if sixhourly.Some? {
      PresentEntryInQuery(params, 2);
      PartShape("sixhourly", ListValue(sixhourly.value));
      assert "sixhourly" + "=" == "sixhourly=";
    } else {
      assert params == params[..2] + [("sixhourly", NoneValue)] + params[3..];
      NoneEntryIgnored(params[..2], "sixhourly", params[3..]);
    }
  }

  /** `seasonal_forecast`: daily falls back to the temperature and precipitation variables. */
  function SeasonalForecast(latitude: string, longitude: string, sixhourly: Option<seq<string>>,
                            daily: Option<seq<string>>, temperatureUnit: string, timezone: string,
                            forecastDays: int): (c: Call)
    ensures c == WeatherCall("open_meteo_seasonal", "/v1/seasonal",
                             SeasonalParams(latitude, longitude, sixhourly, daily, temperatureUnit, timezone, forecastDays))
    ensures "daily=" + Strings.Join(OrDefault(daily, SeasonalVariables), ',')
            in QueryParts(SeasonalParams(latitude, longitude, sixhourly, daily, temperatureUnit, timezone, forecastDays))
    ensures sixhourly.Some? ==>
      ("sixhourly=" + Strings.Join(sixhourly.value, ',')
       in QueryParts(SeasonalParams(latitude, longitude, sixhourly, daily, temperatureUnit, timezone, forecastDays)))
    ensures sixhourly.None? ==>
      (var params := SeasonalParams(latitude, longitude, sixhourly, daily, temperatureUnit, timezone, forecastDays);
       Query(params) == Query(params[..2] + params[3..]))
  {
    var params := SeasonalParams(latitude, longitude, sixhourly, daily, temperatureUnit, timezone, forecastDays);
    PresentEntryInQuery(params, 3);
    assert Part(params[3].0, params[3].1) == params[3].0 + "=" + Strings.Join(params[3].1.items, ',');
    assert params[3].0 + "=" == "daily=";
    SixhourlyOptional(params, sixhourly);
    WeatherCall("open_meteo_seasonal", "/v1/seasonal", params)
  }

  function ClimateParams(latitude: string, longitude: string, startDate: string, endDate: string,
                         models: Option<seq<string>>, daily: Option<seq<string>>, temperatureUnit: string): Params {
    [("latitude", Text(latitude)), ("longitude", Text(longitude)), ("start_date", Text(startDate)),
     ("end_date", Text(endDate)), ("models", OptionalList(models)),
     ("daily", ListValue(OrDefault(daily, SeasonalVariables))), ("temperature_unit", Text(temperatureUnit))]
  }

  /** `climate_projection`: sent on the forecast connection; daily falls back as in the seasonal tool. */
  function ClimateProjection(latitude: string, longitude: string, startDate: string, endDate: string,
                             models: Option<seq<string>>, daily: Option<seq<string>>, temperatureUnit: string): (c: Call)
    ensures c == WeatherCall("open_meteo_forecast", "/v1/climate",
                             ClimateParams(latitude, longitude, startDate, endDate, models, daily, temperatureUnit))
    ensures "daily=" + Strings.Join(OrDefault(daily, SeasonalVariables), ',')
            in QueryParts(ClimateParams(latitude, longitude, startDate, endDate, models, daily, temperatureUnit))
  {
    var params := ClimateParams(latitude, longitude, startDate, endDate, models, daily, temperatureUnit);
    PresentEntryInQuery(params, 5);
    assert Part(params[5].0, params[5].1) == params[5].0 + "=" + Strings.Join(params[5].1.items, ',');
    assert params[5].0 + "=" == "daily=";
    WeatherCall("open_meteo_forecast", "/v1/climate", params)
  }


  /** The four parameters `geocoding` always sends. */
  function GeocodingBase(name: string, count: int, language: string): Params {
    [("name", Text(name)), ("count", IntValue(count)), ("language", Text(language)), ("format", Text("json"))]
  }

  function GeocodingParams(name: string, count: int, language: string, countryCode: Option<string>): Params {
    var base := GeocodingBase(name, count, language);
    if Json.GivenText(countryCode) then base + [("countryCode", Text(countryCode.value))] else base
  }

  /** The parts of the fixed parameters, in order. */
  lemma GeocodingBaseParts(name: string, count: int, language: string)
    ensures QueryParts(GeocodingBase(name, count, language)) ==
      ["name=" + name, "count=" + Strings.IntToString(count), "language=" + language, "format=json"]
  {
    var e0, e1, e2, e3 := ("name", Text(name)), ("count", IntValue(count)), ("language", Text(language)), ("format", Text("json"));
    assert GeocodingBase(name, count, language) == [] + [e0] + [e1] + [e2] + [e3];
    OneMore([], "name", Text(name));
    OneMore([e0], "count", IntValue(count));
    OneMore([e0] + [e1], "language", Text(language));
    OneMore([e0] + [e1] + [e2], "format", Text("json"));
    assert Part("name", Text(name)) == "name=" + name by {
      PartShape("name", Text(name));
      assert "name" + "=" == "name=";
    }
    assert Part("count", IntValue(count)) == "count=" + Strings.IntToString(count) by {
      PartShape("count", IntValue(count));
      assert "count" + "=" == "count=";
    }
    assert Part("language", Text(language)) == "language=" + language by {
      PartShape("language", Text(language));
      assert "language" + "=" == "language=";
    }
    FormatJsonPart();
  }

  /** A present entry appended to the dict appends its part. */
  lemma OneMore(params: Params, key: string, v: Param)
    requires !v.NoneValue?
    ensures QueryParts(params + [(key, v)]) == QueryParts(params) + [Part(key, v)]
  {
    assert (params + [(key, v)])[..|params|] == params;
  }

  lemma FormatJsonPart()
    ensures Part("format", Text("json")) == "format=json"
  {
    PartShape("format", Text("json"));
    assert "format" + "=" + "json" == "format=json";
  }

  /** A part is its key, `=` and the rendered value. */
  lemma PartShape(key: string, v: Param)
    requires !v.NoneValue?
    ensures Part(key, v) == key + "=" + Render(v)
  {
    var p := Part(key, v);
    assert p == p[..|key| + 1] + p[|key| + 1..];
  }

  /** The parts of the geocoding query: the fixed four, then `countryCode` only when given. */
  lemma GeocodingParts(name: string, count: int, language: string, countryCode: Option<string>)
    ensures var parts := QueryParts(GeocodingParams(name, count, language, countryCode));
      |parts| == (if Json.GivenText(countryCode) then 5 else 4) &&
      parts[..4] == ["name=" + name, "count=" + Strings.IntToString(count), "language=" + language, "format=json"] &&
      (Json.GivenText(countryCode) ==> parts[4] == "countryCode=" + countryCode.value)
  {
    var base := GeocodingBase(name, count, language);
    GeocodingBaseParts(name, count, language);
    if Json.GivenText(countryCode) {
      var extra := [("countryCode", Text(countryCode.value))];
      QueryPartsAppend(base, extra);
      SingleEntry("countryCode", Text(countryCode.value));
      assert QueryParts(extra) == [Part("countryCode", Text(countryCode.value))];
    }
  }

  /** `geocoding`'s request: always `format=json`, and `countryCode` as a fifth part only when given. */
  function Geocoding(name: string, count: int, language: string, countryCode: Option<string>): (c: Call)
    ensures c.connection == "open_meteo_geocoding" && c.request.verb == Dispatch.GET
    ensures c.request.headers == map[] && c.request.body == None
    ensures c.request.path == "/v1/search?" + Query(GeocodingParams(name, count, language, countryCode))
    ensures var parts := QueryParts(GeocodingParams(name, count, language, countryCode));
      |parts| == (if Json.GivenText(countryCode) then 5 else 4) &&
      parts[..4] == ["name=" + name, "count=" + Strings.IntToString(count), "language=" + language, "format=json"] &&
      (Json.GivenText(countryCode) ==> parts[4] == "countryCode=" + countryCode.value)
  {
    var params := GeocodingParams(name, count, language, countryCode);
    GeocodingParts(name, count, language, countryCode);
    Call("open_meteo_geocoding", Dispatch.Request(Dispatch.GET, "/v1/search?" + Query(params), map[], None))
  }

  datatype GeocodingResult = GeocodingResult(success: bool, results: Option<Json.Value>, error: Option<string>)

  /** `geocoding`'s result: on success, `body["results"]` when the body is a dict holding it, `[]` otherwise. */
  function GeocodingResultOf(resp: Dispatch.Response): (r: GeocodingResult)
    ensures r.success == resp.success && (r.error.None? <==> r.success)
    ensures r.success && resp.body.Obj? && "results" in resp.body.fields ==> r.results == Some(resp.body.fields["results"])
    ensures r.success && !(resp.body.Obj? && "results" in resp.body.fields) ==> r.results == Some(Json.Arr([]))
    ensures !r.success ==> r.results.None? && r.error == Some(Dispatch.ErrorMessage(resp, "Geocoding failed"))
  {
    if resp.success then
      var results := if resp.body.Obj? then Json.Get(resp.body.fields, "results", Json.Arr([])) else Json.Arr([]);
      GeocodingResult(true, Some(results), None)
    else GeocodingResult(false, None, Some(Dispatch.ErrorMessage(resp, "Geocoding failed")))
  }
}
