/** The request pipeline of the weather route (app/api/weather/route.ts):
    choosing between coordinates and a place name, the US bounding box, the
    geocoder's answer, the three weather.gov lookups and the mapping from
    the error that ends the pipeline to an HTTP status. Every fetch, the
    number parser, the number formatter and the clock are parameters
    gathered in `Env`. */
module WeatherRoute {
  import opened Wrappers
  import opened Text
  import opened Forecast

  /** A JavaScript number as `Number.parseFloat` can produce it. */
  datatype Num = Finite(value: real) | Infinite(positive: bool) | NaN

  /** `a < bound`: false whenever `a` is NaN. */
  predicate Below(a: Num, bound: real) {
    match a
    case Finite(v) => v < bound
    case Infinite(positive) => !positive
    case NaN => false
  }

  /** `a > bound`: false whenever `a` is NaN. */
  predicate Above(a: Num, bound: real) {
    match a
    case Finite(v) => v > bound
    case Infinite(positive) => positive
    case NaN => false
  }

  /** The approximate-US-bounds test on explicit coordinates. */
  predicate OutsideUs(lat: Num, lon: Num) {
    Below(lat, 24.5) || Above(lat, 49.5) || Below(lon, -125.0) || Above(lon, -66.5)
  }

  /** The bounding box, edges included. */
  predicate InUsBox(lat: real, lon: real) {
    24.5 <= lat <= 49.5 && -125.0 <= lon <= -66.5
  }

  /** The query string: `lat`, `lon` and `location`, each possibly absent. */
  datatype Query = Query(lat: Option<string>, lon: Option<string>, location: Option<string>)

  /** A query parameter is truthy when present and not empty. */
  predicate Truthy(p: Option<string>) {
    p.Some? && p.value != ""
  }

  /** Where the coordinates come from. */
  datatype Source = Coordinates(lat: string, lon: string) | PlaceName(name: string) | NoSource

  /** Coordinates win when both are truthy; otherwise a truthy location is
      geocoded; otherwise there is nothing to look up. */
  function SourceOf(q: Query): (s: Source)
    ensures s.Coordinates? <==> Truthy(q.lat) && Truthy(q.lon)
    ensures s.PlaceName? <==> !(Truthy(q.lat) && Truthy(q.lon)) && Truthy(q.location)
    ensures s.Coordinates? ==> s.lat == q.lat.value && s.lon == q.lon.value
    ensures s.PlaceName? ==> s.name == q.location.value
  {
    if Truthy(q.lat) && Truthy(q.lon) then Coordinates(q.lat.value, q.lon.value)
    else if Truthy(q.location) then PlaceName(q.location.value)
    else NoSource
  }

  /** The outcome of one fetch: a body, a response that is not ok, or a
      request that never got a response. */
  datatype Fetch<T> = Ok(body: T) | HttpError(status: nat) | NetworkError

  /** The message of the error a failed request throws. */
  const FetchFailed := "fetch failed"

  /** The message thrown for a response that is not ok. */
  function Failed(what: string, status: nat): string {
    "Failed to " + what + ": " + NatToDecimal(status)
  }

  /** A fetch as the helpers use it: the body, or the error they throw. */
  function Expect<T>(f: Fetch<T>, what: string): (r: Result<T>)
    ensures r.Success? <==> f.Ok?
    ensures r.Success? ==> r.value == f.body
    ensures f.HttpError? ==> r.message == Failed(what, f.status)
    ensures f.NetworkError? ==> r.message == FetchFailed
  {
    match f
    case Ok(body) => Success(body)
    case HttpError(status) => Failure(Failed(what, status))
    case NetworkError => Failure(FetchFailed)
  }

  /** One geocoder candidate: its point, its address and its country. */
  datatype Candidate = Candidate(x: real, y: real, address: string, country: Option<string>)

  /** Coordinates and the name shown for them. */
  datatype Located = Located(latitude: Num, longitude: Num, name: string)

  const LocationNotFound := "Location not found"
  const UsOnly := "Only US locations are supported"

  /** A candidate is rejected only when it names a country, and that
      country is not "USA"; an empty or missing country passes. */
  predicate Foreign(c: Candidate) {
    c.country.Some? && c.country.value != "" && c.country.value != "USA"
  }

  /** The geocoder's reply, read as the location helper reads it: only the
      first candidate is considered. */
  function Geocode(reply: Fetch<Option<seq<Candidate>>>): (r: Result<Located>)
    ensures r.Success? <==>
      reply.Ok? && reply.body.Some? && |reply.body.value| > 0 && !Foreign(reply.body.value[0])
    ensures reply.Ok? && (reply.body.None? || reply.body.value == []) ==> r == Failure(LocationNotFound)
    ensures reply.Ok? && reply.body.Some? && |reply.body.value| > 0 && Foreign(reply.body.value[0]) ==>
      r == Failure(UsOnly)
    ensures reply.HttpError? ==> r == Failure(Failed("geocode location", reply.status))
    ensures reply.NetworkError? ==> r == Failure(FetchFailed)
    ensures r.Success? ==>
      var c := reply.body.value[0];
      r.value == Located(Finite(c.y), Finite(c.x), c.address)
  {
    var data :- Expect(reply, "geocode location");
    if data.None? || data.value == [] then Failure(LocationNotFound)
    else
      var match0 := data.value[0];
      if Foreign(match0) then Failure(UsOnly)
      else Success(Located(Finite(match0.y), Finite(match0.x), match0.address))
  }

  /** The grid-point reply: where the daily and the hourly forecast live. */
  datatype Grid = Grid(forecast: string, forecastHourly: string)

  /** Everything outside the pure logic: the parser, the two-decimal
      formatter, the geocoder, the grid-point and forecast lookups, and the
      current hour. */
  datatype Env = Env(
    parse: string -> Num,
    fixed: Num -> string,
    geocode: string -> Fetch<Option<seq<Candidate>>>,
    points: (Num, Num) -> Fetch<Grid>,
    periods: string -> Fetch<seq<Period>>,
    hour: int)

  /** Coordinates for a source that is not `NoSource`. */
  function Locate(src: Source, env: Env): (r: Result<Located>)
    requires !src.NoSource?
    ensures src.Coordinates? ==>
      (r.Failure? <==> OutsideUs(env.parse(src.lat), env.parse(src.lon)))
    ensures r.Failure? && src.Coordinates? ==> r.message == UsOnly
    ensures r.Success? && src.Coordinates? ==>
      r.value.latitude == env.parse(src.lat) && r.value.longitude == env.parse(src.lon)
    ensures src.PlaceName? ==> r == Geocode(env.geocode(src.name))
  {
    match src
    case Coordinates(lat, lon) =>
      var latitude := env.parse(lat);
      var longitude := env.parse(lon);
      if OutsideUs(latitude, longitude) then Failure(UsOnly)
      else Success(Located(latitude, longitude, env.fixed(latitude) + ", " + env.fixed(longitude)))
    case PlaceName(name) => Geocode(env.geocode(name))
  }

  /** The three weather.gov lookups and the summary built from them: the
      first lookup that fails decides the error, and when all three answer
      the result is the summary of the two forecasts. */
  function Gather(loc: Located, env: Env): (r: Result<Summary>)
    ensures var points := env.points(loc.latitude, loc.longitude);
      && (points.HttpError? ==> r == Failure(Failed("get grid points", points.status)))
      && (points.NetworkError? ==> r == Failure(FetchFailed))
    ensures env.points(loc.latitude, loc.longitude).Ok? ==>
      var grid := env.points(loc.latitude, loc.longitude).body;
      var daily := env.periods(grid.forecast);
      var hourly := env.periods(grid.forecastHourly);
      && (daily.HttpError? ==> r == Failure(Failed("get forecast", daily.status)))
      && (daily.NetworkError? ==> r == Failure(FetchFailed))
      && (daily.Ok? && hourly.HttpError? ==> r == Failure(Failed("get hourly forecast", hourly.status)))
      && (daily.Ok? && hourly.NetworkError? ==> r == Failure(FetchFailed))
      && (daily.Ok? && hourly.Ok? ==> r == Summarize(loc.name, daily.body, hourly.body, env.hour))
    ensures r.Success? ==> r.value.location == loc.name
  {
    var grid :- Expect(env.points(loc.latitude, loc.longitude), "get grid points");
    var daily :- Expect(env.periods(grid.forecast), "get forecast");
    var hourly :- Expect(env.periods(grid.forecastHourly), "get hourly forecast");
    Summarize(loc.name, daily, hourly, env.hour)
  }

  /** The messages the stages of the route can throw: the two refusals, a
      failed request, a non-ok answer from one of the four lookups, and the
      TypeError of an empty hourly forecast. */
  ghost predicate Thrown(message: string) {
    || message == LocationNotFound
    || message == UsOnly
    || message == FetchFailed
    || message == MissingCurrentPeriod
    || (exists status: nat :: message == Failed("geocode location", status))
    || (exists status: nat :: message == Failed("get grid points", status))
    || (exists status: nat :: message == Failed("get forecast", status))
    || (exists status: nat :: message == Failed("get hourly forecast", status))
  }

  /** What the route answers. */
  datatype Reply = WeatherJson(summary: Summary) | ErrorJson(status: int, error: string)

  const MissingInputText := "Either lat/lon or location must be provided"
  const NotFoundText := "We couldn't find that location. Please try a different city, state, or zip code."
  const UnsupportedGridText := "This location is not supported by the weather.gov API. Please try a location within the United States."
  const UsOnlyText := "This app currently only supports locations in the United States."
  const GenericText := "Failed to fetch weather data"

  /** The catch block: "Location not found" is a 404, a grid-point failure
      and the US-only refusal are 400s, anything else is a 500. */
  function ErrorReply(message: string): (r: Reply)
    ensures r.ErrorJson?
    ensures r.status == 404 <==> message == LocationNotFound
    ensures r.status == 400 <==>
      message != LocationNotFound && (Contains(message, "Failed to get grid points") || message == UsOnly)
    ensures r.status == 500 <==> r.error == GenericText
    ensures r.status in {400, 404, 500}
  {
    if message == LocationNotFound then ErrorJson(404, NotFoundText)
    else if Contains(message, "Failed to get grid points") then ErrorJson(400, UnsupportedGridText)
    else if message == UsOnly then ErrorJson(400, UsOnlyText)
    else ErrorJson(500, GenericText)
  }

  /** The whole route for one query. */
  function Handle(q: Query, env: Env): (r: Reply)
    ensures r.ErrorJson? ==> r.status in {400, 404, 500}
    ensures r.WeatherJson? ==>
      && SourceOf(q) != NoSource
      && r.summary.feelsLike == r.summary.temperature
      && |r.summary.forecast| <= 3
      && r.summary.uvIndex == EstimateUv(r.summary.condition, env.hour)
      && r.summary.uvIndex in {2, 4, 7}
  {
    var src := SourceOf(q);
    if src.NoSource? then ErrorJson(400, MissingInputText)
    else
      match Run(src, env)
      case Success(summary) => WeatherJson(summary)
      case Failure(message) => ErrorReply(message)
  }

  /** Locating, then gathering. Coordinates outside the box are refused
      before any lookup; whatever is located is what the summary is named
      after; and every error is one of the messages the stages throw. */
  function Run(src: Source, env: Env): (r: Result<Summary>)
    requires !src.NoSource?
    ensures src.Coordinates? && OutsideUs(env.parse(src.lat), env.parse(src.lon)) ==> r == Failure(UsOnly)
    ensures r.Success? ==> Locate(src, env).Success? && r.value.location == Locate(src, env).value.name
    ensures r.Failure? ==> Thrown(r.message)
  {
    var loc :- Locate(src, env);
    Gather(loc, env)
  }

  /** With both coordinates present, neither the location parameter nor
      the geocoder plays any part in the answer. */
  lemma CoordinatesTakePrecedence(q: Query, env: Env, geocoder: string -> Fetch<Option<seq<Candidate>>>)
    requires Truthy(q.lat) && Truthy(q.lon)
    ensures Handle(q, env) == Handle(q.(location := None), env.(geocode := geocoder))
  {
    var other := env.(geocode := geocoder);
    var src := SourceOf(q);
    assert SourceOf(q.(location := None)) == src;
    match Locate(src, env)
    case Failure(_) =>
      assert Locate(src, other) == Locate(src, env);
    case Success(loc) =>
      assert Locate(src, other) == Locate(src, env);
      GatherIgnoresGeocoder(loc, env, geocoder);
  }

  /** The weather.gov lookups do not use the geocoder. */
  lemma GatherIgnoresGeocoder(loc: Located, env: Env, geocoder: string -> Fetch<Option<seq<Candidate>>>)
    ensures Gather(loc, env.(geocode := geocoder)) == Gather(loc, env)
  {
    var other := env.(geocode := geocoder);
    assert other.points == env.points && other.periods == env.periods && other.hour == env.hour;
  }

  /** A query with neither both coordinates nor a location is a 400, and
      that answer is given for no other query. */
  lemma MissingInputIs400(q: Query, env: Env)
    ensures Handle(q, env) == ErrorJson(400, MissingInputText)
        <==> !(Truthy(q.lat) && Truthy(q.lon)) && !Truthy(q.location)
  {
    if SourceOf(q) != NoSource {
      match Run(SourceOf(q), env)
      case Success(_) =>
      case Failure(message) =>
        var r := ErrorReply(message);
        // The missing-input text is told apart from the three texts the
        // catch block can answer with by its length alone.
        assert r.error != MissingInputText by {
          assert |MissingInputText| == 43;
        }
    }
  }

  /** The refusal of a non-US location keeps its own 400 answer. */
  lemma UsOnlyIs400()
    ensures ErrorReply(UsOnly) == ErrorJson(400, UsOnlyText)
  {
    assert UsOnly[0] != LocationNotFound[0];
    NotContainsMissingChar(UsOnly, "Failed to get grid points", 'F');
  }

  /** Coordinates that fail the bounding-box test are refused as non-US
      without consulting weather.gov. */
  lemma OutsideBoxIs400(q: Query, env: Env, points: (Num, Num) -> Fetch<Grid>)
    requires Truthy(q.lat) && Truthy(q.lon)
    requires OutsideUs(env.parse(q.lat.value), env.parse(q.lon.value))
    ensures Handle(q, env) == ErrorJson(400, UsOnlyText)
    ensures Handle(q, env.(points := points)) == Handle(q, env)
  {
    var src := SourceOf(q);
    assert Run(src, env) == Failure(UsOnly);
    assert Run(src, env.(points := points)) == Failure(UsOnly);
    UsOnlyIs400();
  }

  /** Finite coordinates are looked up exactly when they lie inside the
      box, edges included. */
  lemma FiniteCoordinatesInBox(lat: real, lon: real)
    ensures !OutsideUs(Finite(lat), Finite(lon)) <==> InUsBox(lat, lon)
  {
  }

  /** Finite coordinates inside the box go on to the grid-point lookup
      under the name the formatter gives them. */
  lemma InsideBoxIsLookedUp(q: Query, env: Env, lat: real, lon: real)
    requires Truthy(q.lat) && Truthy(q.lon)
    requires env.parse(q.lat.value) == Finite(lat) && env.parse(q.lon.value) == Finite(lon)
    requires InUsBox(lat, lon)
    ensures Run(SourceOf(q), env)
         == Gather(Located(Finite(lat), Finite(lon), env.fixed(Finite(lat)) + ", " + env.fixed(Finite(lon))), env)
  {
  }

  /** A coordinate that does not parse is NaN, and every comparison with
      NaN is false, so neither coordinate ever fails the bounding-box test:
      two unparsable coordinates go straight to the grid-point lookup. */
  lemma UnparsableCoordinatesPassBox(q: Query, env: Env)
    requires Truthy(q.lat) && Truthy(q.lon)
    requires env.parse(q.lat.value) == NaN && env.parse(q.lon.value) == NaN
    ensures Run(SourceOf(q), env) == Gather(Located(NaN, NaN, env.fixed(NaN) + ", " + env.fixed(NaN)), env)
  {
  }

  /** A single unparsable coordinate never fails its own two comparisons,
      but the other coordinate is still tested: the request is refused as
      non-US exactly when that other coordinate is out of range. */
  lemma HalfParsedOutsideBoxIs400(q: Query, env: Env)
    requires Truthy(q.lat) && Truthy(q.lon)
    requires env.parse(q.lat.value) == NaN || env.parse(q.lon.value) == NaN
    ensures var lat, lon := env.parse(q.lat.value), env.parse(q.lon.value);
      lat == NaN ==> (OutsideUs(lat, lon) <==> Below(lon, -125.0) || Above(lon, -66.5))
    ensures var lat, lon := env.parse(q.lat.value), env.parse(q.lon.value);
      lon == NaN ==> (OutsideUs(lat, lon) <==> Below(lat, 24.5) || Above(lat, 49.5))
    ensures var lat, lon := env.parse(q.lat.value), env.parse(q.lon.value);
      lat == NaN && (Below(lon, -125.0) || Above(lon, -66.5)) ==> Handle(q, env) == ErrorJson(400, UsOnlyText)
    ensures var lat, lon := env.parse(q.lat.value), env.parse(q.lon.value);
      lon == NaN && (Below(lat, 24.5) || Above(lat, 49.5)) ==> Handle(q, env) == ErrorJson(400, UsOnlyText)
  {
    if OutsideUs(env.parse(q.lat.value), env.parse(q.lon.value)) {
      OutsideBoxIs400(q, env, env.points);
    }
  }

  /** A place name the geocoder has no candidate for is a 404. */
  lemma UnknownPlaceIs404(q: Query, env: Env)
    requires !(Truthy(q.lat) && Truthy(q.lon)) && Truthy(q.location)
    requires env.geocode(q.location.value) == Ok(None) || env.geocode(q.location.value) == Ok(Some([]))
    ensures Handle(q, env) == ErrorJson(404, NotFoundText)
  {
  }

  /** A first candidate in another country is refused as non-US. */
  lemma ForeignPlaceIs400(q: Query, env: Env, c: Candidate, rest: seq<Candidate>)
    requires !(Truthy(q.lat) && Truthy(q.lon)) && Truthy(q.location)
    requires env.geocode(q.location.value) == Ok(Some([c] + rest)) && Foreign(c)
    ensures Handle(q, env) == ErrorJson(400, UsOnlyText)
  {
    assert Locate(SourceOf(q), env) == Failure(UsOnly);
    UsOnlyIs400();
  }

  /** A grid-point lookup that answers with an error status is reported as
      a location weather.gov does not cover. */
  lemma GridFailureIs400(q: Query, env: Env, loc: Located, status: nat)
    requires SourceOf(q) != NoSource && Locate(SourceOf(q), env) == Success(loc)
    requires env.points(loc.latitude, loc.longitude) == HttpError(status)
    ensures Handle(q, env) == ErrorJson(400, UnsupportedGridText)
  {
    GridMessageIs400(status);
  }

  /** The grid-point failure message maps to the unsupported-location 400. */
  lemma GridMessageIs400(status: nat)
    ensures ErrorReply(Failed("get grid points", status)) == ErrorJson(400, UnsupportedGridText)
  {
    var message := Failed("get grid points", status);
    assert message == "Failed to get grid points" + (": " + NatToDecimal(status));
    ContainsInContext([], "Failed to get grid points", ": " + NatToDecimal(status), "Failed to get grid points");
    assert message[0] != LocationNotFound[0];
  }

  /** A place name the geocoder answers with an error status is a generic
      500. */
  lemma GeocodeFailureIs500(q: Query, env: Env, status: nat)
    requires !(Truthy(q.lat) && Truthy(q.lon)) && Truthy(q.location)
    requires env.geocode(q.location.value) == HttpError(status)
    ensures Handle(q, env) == ErrorJson(500, GenericText)
  {
    StageFailureIs500("geocode location", status);
  }

  /** A place name whose geocoder request gets no response at all is a
      generic 500. */
  lemma UnreachableGeocoderIs500(q: Query, env: Env)
    requires !(Truthy(q.lat) && Truthy(q.lon)) && Truthy(q.location)
    requires env.geocode(q.location.value) == NetworkError
    ensures Handle(q, env) == ErrorJson(500, GenericText)
  {
    NetworkFailureIs500();
  }

  /** A daily forecast lookup that answers with an error status is a
      generic 500. */
  lemma ForecastFailureIs500(q: Query, env: Env, loc: Located, grid: Grid, status: nat)
    requires SourceOf(q) != NoSource && Locate(SourceOf(q), env) == Success(loc)
    requires env.points(loc.latitude, loc.longitude) == Ok(grid)
    requires env.periods(grid.forecast) == HttpError(status)
    ensures Handle(q, env) == ErrorJson(500, GenericText)
  {
    StageFailureIs500("get forecast", status);
  }

  /** An hourly forecast lookup that answers with an error status, after
      the daily one succeeded, is a generic 500. */
  lemma HourlyFailureIs500(q: Query, env: Env, loc: Located, grid: Grid, daily: seq<Period>, status: nat)
    requires SourceOf(q) != NoSource && Locate(SourceOf(q), env) == Success(loc)
    requires env.points(loc.latitude, loc.longitude) == Ok(grid)
    requires env.periods(grid.forecast) == Ok(daily)
    requires env.periods(grid.forecastHourly) == HttpError(status)
    ensures Handle(q, env) == ErrorJson(500, GenericText)
  {
    StageFailureIs500("get hourly forecast", status);
  }

  /** A grid-point request that gets no response at all is a generic 500,
      not the unsupported-location 400 a non-ok answer gets. */
  lemma UnreachableGridIs500(q: Query, env: Env, loc: Located)
    requires SourceOf(q) != NoSource && Locate(SourceOf(q), env) == Success(loc)
    requires env.points(loc.latitude, loc.longitude) == NetworkError
    ensures Handle(q, env) == ErrorJson(500, GenericText)
  {
    NetworkFailureIs500();
  }

  /** An hourly forecast without periods is a generic 500. */
  lemma EmptyHourlyIs500(q: Query, env: Env, loc: Located, grid: Grid, daily: seq<Period>)
    requires SourceOf(q) != NoSource && Locate(SourceOf(q), env) == Success(loc)
    requires env.points(loc.latitude, loc.longitude) == Ok(grid)
    requires env.periods(grid.forecast) == Ok(daily)
    requires env.periods(grid.forecastHourly) == Ok([])
    ensures Handle(q, env) == ErrorJson(500, GenericText)
  {
    NoCurrentPeriodIs500();
  }

  /** When every lookup answers and the hourly forecast has a period, the
      route answers with the summary of the two forecasts, named after the
      located place. */
  lemma AnswerIsSummary(q: Query, env: Env, loc: Located, grid: Grid, daily: seq<Period>, hourly: seq<Period>)
    requires SourceOf(q) != NoSource && Locate(SourceOf(q), env) == Success(loc)
    requires env.points(loc.latitude, loc.longitude) == Ok(grid)
    requires env.periods(grid.forecast) == Ok(daily)
    requires env.periods(grid.forecastHourly) == Ok(hourly) && hourly != []
    ensures Handle(q, env) == WeatherJson(Summarize(loc.name, daily, hourly, env.hour).value)
  {
  }

  /** The failure message of the geocoder or of either forecast lookup
      maps to the generic 500. */
  lemma StageFailureIs500(what: string, status: nat)
    requires what == "geocode location" || what == "get forecast" || what == "get hourly forecast"
    ensures ErrorReply(Failed(what, status)) == ErrorJson(500, GenericText)
  {
    NoLetterP(what, status);
    NotContainsMissingChar(Failed(what, status), "Failed to get grid points", 'p');
    assert Failed(what, status)[0] == 'F';
  }

  /** The message of a request that gets no response at all maps to the
      generic 500. */
  lemma NetworkFailureIs500()
    ensures ErrorReply(FetchFailed) == ErrorJson(500, GenericText)
  {
    NotContainsMissingChar(FetchFailed, "Failed to get grid points", 'p');
  }

  /** The TypeError of an hourly forecast with no periods maps to the
      generic 500. */
  lemma NoCurrentPeriodIs500()
    ensures ErrorReply(MissingCurrentPeriod) == ErrorJson(500, GenericText)
  {
    NoCapitalF();
    NotContainsMissingChar(MissingCurrentPeriod, "Failed to get grid points", 'F');
  }

  /** The TypeError's message has no capital F, so it cannot contain
      "Failed to get grid points" and is not taken for a grid-point
      failure. */
  lemma NoCapitalF()
    ensures 'F' !in MissingCurrentPeriod
  {
    assert 'F' !in "Cannot read properties of ";
    assert 'F' !in "undefined";
    assert 'F' !in " (reading '";
    assert 'F' !in "temperature";
  }

  /** The failure messages of the geocoder and the forecast lookups have no
      letter p, so they cannot contain "Failed to get grid points" and fall
      through to the generic 500. */
  lemma NoLetterP(what: string, status: nat)
    requires what == "geocode location" || what == "get forecast" || what == "get hourly forecast"
    ensures 'p' !in Failed(what, status)
  {
    var digits := NatToDecimal(status);
    assert forall i :: 0 <= i < |digits| ==> digits[i] != 'p';
    assert 'p' !in "Failed to " + what + ": ";
  }
}
